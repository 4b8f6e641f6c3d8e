/** What each request does to the stock, in the words of the request: which entries it posts, of what kind
    and for how much, and nothing anywhere else. Over whole runs the ledger, kind by kind and cell by cell,
    is exactly what was asked for. */
module Efectos {
  import opened Comun
  import opened Sumas
  import opened Kardex
  import opened Movimientos
  import opened Lotes
  import opened Existencias
  import opened Inventario
  import opened Invariante
  import opened Corridas

  function DeTipo(c: Celda, t: TipoMovimiento): Asiento -> real {
    (a: Asiento) => if a.celda == c && a.tipo == t then a.cantidad else 0.0
  }

  function Si(b: bool, q: real): real {
    if b then q else 0.0
  }

  /** A loop whose turns each add to a measure adds their sum. */
  lemma {:induction false} PlegarSuma<S(!new), T(!new)>(s: S, xs: seq<T>, paso: (S, T) -> Resultado<S>, M: S -> real, g: T -> real)
    requires forall z, x {:trigger paso(z, x)} :: x in xs && paso(z, x).Ok? ==> M(paso(z, x).value) == M(z) + g(x)
    ensures Plegar(s, xs, paso).Ok? ==> M(Plegar(s, xs, paso).value) == M(s) + Suma(xs, g)
  {
    if |xs| > 0 && Plegar(s, xs, paso).Ok? {
      PlegarSuma(s, xs[..|xs| - 1], paso, M, g);
      assert xs[|xs| - 1] in xs;
    }
  }

  function EnLedger(c: Celda, t: TipoMovimiento): Kardex -> real {
    (k: Kardex) => Suma(k.ledger, DeTipo(c, t))
  }

  lemma {:induction false} UnAsiento(k: Kardex, k': Kardex, a: Asiento, c: Celda, t: TipoMovimiento)
    requires k'.ledger == k.ledger + [a]
    ensures EnLedger(c, t)(k') == EnLedger(c, t)(k) + DeTipo(c, t)(a)
  {
    assert (k.ledger + [a])[..|k.ledger|] == k.ledger;
  }

  // ------------------------------------------------------------------ what each request asks for

  function CompraEn(a: AlmacenId, c: Celda): ItemCompra -> real {
    (i: ItemCompra) => if Celda(a, i.variante) == c then i.cantidad else 0.0
  }

  /** Lines of variants whose stock is not tracked move none. */
  function VentaEn(vs: map<VarianteId, Variante>, c: Celda): LineaStock -> real {
    (l: LineaStock) => if l.celda == c && c.variante in vs && vs[c.variante].isStockTracked then l.cantidad else 0.0
  }

  function ReingresoEn(c: Celda): Reingreso -> real {
    (r: Reingreso) => if r.celda == c then r.cantidad else 0.0
  }

  /** What a count found in cell c, if it counted it. */
  function ContadoEn(a: AlmacenId, items: seq<ItemConteo>, c: Celda): Option<real> {
    if |items| == 0 then None
    else
      var i := items[|items| - 1];
      if Celda(a, i.variante) == c then i.contada else ContadoEn(a, items[..|items| - 1], c)
  }

  predicate Lleva(items: seq<Articulo>, v: VarianteId) {
    exists i :: 0 <= i < |items| && items[i].variante == v
  }

  /** The request was not made before under the same key. */
  predicate EsNueva(s: Estado, p: Peticion) {
    match p
    case PStockInicial(_, _, _, clave) => !ClaveUsada(s.kardex.ledger, Cliente(clave))
    case PAjuste(_, _, _, _, clave, _) => clave == "" || !ClaveUsada(s.kardex.ledger, Ajuste(clave))
    case PTransferir(_, _, _, clave) => !SalidaConClave(s.kardex.ledger, clave)
    case PRecibir(_, _, clave) => !EntradaConClave(s.kardex.ledger, clave)
    case PRecepcion(clave, _, _, _) => !RecepcionConClave(s.recepciones, clave)
    case _ => true
  }

  /** What a request that commits posts in cell c, of each kind. */
  function Asentado(s: Estado, p: Peticion, c: Celda, t: TipoMovimiento): real {
    match p
    case PStockInicial(d, q, _, _) => Si(t == APERTURA && d == c, q)
    case PStockCatalogo(d, q, _) => Si(t == APERTURA && d == c, q)
    case PAjuste(d, esEntrada, q, _, _, _) =>
      Si(t == AJUSTE_ENTRADA && esEntrada && d == c, q) - Si(t == AJUSTE_SALIDA && !esEntrada && d == c, q)
    case PContabilizar(id) =>
      if id >= |s.conteos| then 0.0
      else
        var diferencia := ContadoEn(s.conteos[id].almacen, s.conteos[id].articulos, c).GetOr(Fila(s.kardex, c).enStock) - Fila(s.kardex, c).enStock;
        DeConteo(t, diferencia)
    case PTransferir(o, _, pedidos, _) => -Si(t == TRANSFERENCIA_SALIDA && o == c.almacen, Suma(pedidos, CantidadDe(c.variante)))
    case PRecibir(id, pedidos, _) =>
      if id >= |s.transferencias| then 0.0
      else Si(t == TRANSFERENCIA_ENTRADA && s.transferencias[id].destino == c.almacen && Lleva(s.transferencias[id].articulos, c.variante),
              Suma(pedidos, CantidadDe(c.variante)))
    case PCancelar(id) =>
      if id >= |s.transferencias| then 0.0
      else Si(t == TRANSFERENCIA_ENTRADA && s.transferencias[id].origen == c.almacen, Suma(s.transferencias[id].articulos, EnviadoDe(c.variante)))
    case PRecepcion(_, _, a, items) => Si(t == RECEPCION_COMPRA, Suma(items, CompraEn(a, c)))
    case PVenta(_, lineas, _) => -Si(t == VENTA, Suma(lineas, VentaEn(s.variantes, c)))
    case PDevolucion(_, items) => Si(t == DEVOLUCION_VENTA, Suma(items, ReingresoEn(c)))
    case _ => 0.0
  }

  /** A refused request posts nothing, and neither does a retry. */
  function Efecto(s: Estado, p: Peticion, c: Celda, t: TipoMovimiento): real {
    if Atender(s, p).Ok? && EsNueva(s, p) then Asentado(s, p, c, t) else 0.0
  }

  // ------------------------------------------------------------------ opening, adjustments

  lemma {:induction false} AjustarAgrega(k: Kardex, d: Celda, esEntrada: bool, q: real, costo: Option<real>, permite: bool, clave: Clave)
    requires Ajustar(k, d, esEntrada, q, costo, permite, clave).Ok?
    ensures var l := Ajustar(k, d, esEntrada, q, costo, permite, clave).value.ledger;
      && |l| == |k.ledger| + 1 && l[..|k.ledger|] == k.ledger
      && l[|k.ledger|].celda == d && l[|k.ledger|].cantidad == (if esEntrada then q else -q)
      && l[|k.ledger|].tipo == if esEntrada then AJUSTE_ENTRADA else AJUSTE_SALIDA
  {
  }

  lemma {:induction false} AjustarAsienta(k: Kardex, d: Celda, esEntrada: bool, q: real, costo: Option<real>, permite: bool, clave: Clave,
                                          c: Celda, t: TipoMovimiento)
    requires Ajustar(k, d, esEntrada, q, costo, permite, clave).Ok?
    ensures EnLedger(c, t)(Ajustar(k, d, esEntrada, q, costo, permite, clave).value) == EnLedger(c, t)(k)
         + Si(t == AJUSTE_ENTRADA && esEntrada && d == c, q) - Si(t == AJUSTE_SALIDA && !esEntrada && d == c, q)
  {
    var k' := Ajustar(k, d, esEntrada, q, costo, permite, clave).value;
    AjustarAgrega(k, d, esEntrada, q, costo, permite, clave);
    UnAsiento(k, k', k'.ledger[|k.ledger|], c, t);
  }

  // ------------------------------------------------------------------ counts

  lemma {:induction false} ContarAsienta(k: Kardex, d: Celda, contada: real, conteo: nat, c: Celda, t: TipoMovimiento)
    requires Contar(k, d, contada, conteo).Ok?
    ensures var diferencia := contada - Fila(k, d).enStock;
      EnLedger(c, t)(Contar(k, d, contada, conteo).value) == EnLedger(c, t)(k)
        + Si(d == c && ((t == GANANCIA_CONTEO && diferencia > 0.0) || (t == PERDIDA_CONTEO && diferencia < 0.0)), diferencia)
  {
    var k' := Contar(k, d, contada, conteo).value;
    if k'.ledger != k.ledger {
      UnAsiento(k, k', k'.ledger[|k.ledger|], c, t);
    }
  }

  lemma {:induction false} ContadoSoloUna(a: AlmacenId, items: seq<ItemConteo>, c: Celda)
    requires forall i :: 0 <= i < |items| ==> Celda(a, items[i].variante) != c
    ensures ContadoEn(a, items, c) == None
  {
    if |items| > 0 {
      ContadoSoloUna(a, items[..|items| - 1], c);
    }
  }

  ghost predicate ConteoLimpio(items: seq<ItemConteo>) {
    && (forall i, j :: 0 <= i < j < |items| ==> items[i].variante != items[j].variante)
    && (forall i :: 0 <= i < |items| && items[i].contada.Some? ==> items[i].contada.value >= 0.0)
  }

  /** What a difference posts, of each kind. */
  function DeConteo(t: TipoMovimiento, diferencia: real): real {
    Si((t == GANANCIA_CONTEO && diferencia > 0.0) || (t == PERDIDA_CONTEO && diferencia < 0.0), diferencia)
  }

  lemma {:induction false} ContarItemAsienta(x: Contado, a: AlmacenId, conteo: nat, item: ItemConteo, c: Celda, t: TipoMovimiento)
    requires ContarItem(a, conteo)(x, item).Ok?
    ensures EnLedger(c, t)(ContarItem(a, conteo)(x, item).value.kardex) == EnLedger(c, t)(x.kardex)
      + (if item.contada.Some? && Celda(a, item.variante) == c then DeConteo(t, item.contada.value - Fila(x.kardex, c).enStock) else 0.0)
  {
    if item.contada.Some? {
      ContarAsienta(x.kardex, Celda(a, item.variante), item.contada.value, conteo, c, t);
    }
  }

  lemma {:induction false} CeldaSinContar(k: Kardex, a: AlmacenId, conteo: nat, items: seq<ItemConteo>, c: Celda)
    requires ConteoLimpio(items) && Plegar(Contado(k, []), items, ContarItem(a, conteo)).Ok?
    requires forall i :: 0 <= i < |items| ==> Celda(a, items[i].variante) != c
    ensures Fila(Plegar(Contado(k, []), items, ContarItem(a, conteo)).value.kardex, c) == Fila(k, c) && ContadoEn(a, items, c) == None
  {
    ContadoSoloUna(a, items, c);
    ContarTodosIguala(k, a, conteo, items, c);
    assert forall i :: 0 <= i < |items| ==> !Nombra(a, items[i], c);
  }

  /** One more item of the count; `antes` is what the items before it found in cell c. */
  lemma {:induction false} ConteoPaso(k: Kardex, p: Contado, r: Contado, a: AlmacenId, conteo: nat, item: ItemConteo, antes: Option<real>,
                                      c: Celda, t: TipoMovimiento)
    requires EnLedger(c, t)(p.kardex) == EnLedger(c, t)(k) + DeConteo(t, antes.GetOr(Fila(k, c).enStock) - Fila(k, c).enStock)
    requires ContarItem(a, conteo)(p, item) == Ok(r)
    requires Celda(a, item.variante) == c ==> antes == None && Fila(p.kardex, c) == Fila(k, c)
    ensures var ahora := if Celda(a, item.variante) == c then item.contada else antes;
      EnLedger(c, t)(r.kardex) == EnLedger(c, t)(k) + DeConteo(t, ahora.GetOr(Fila(k, c).enStock) - Fila(k, c).enStock)
  {
    ContarItemAsienta(p, a, conteo, item, c, t);
  }

  lemma {:induction false} ConteoAsienta(k: Kardex, a: AlmacenId, conteo: nat, items: seq<ItemConteo>, c: Celda, t: TipoMovimiento)
    requires ConteoLimpio(items) && Plegar(Contado(k, []), items, ContarItem(a, conteo)).Ok?
    ensures EnLedger(c, t)(Plegar(Contado(k, []), items, ContarItem(a, conteo)).value.kardex) == EnLedger(c, t)(k)
        + DeConteo(t, ContadoEn(a, items, c).GetOr(Fila(k, c).enStock) - Fila(k, c).enStock)
  {
    if |items| > 0 {
      var n := |items| - 1;
      var paso := ContarItem(a, conteo);
      var p := Plegar(Contado(k, []), items[..n], paso).value;
      ConteoAsienta(k, a, conteo, items[..n], c, t);
      if Celda(a, items[n].variante) == c {
        CeldaSinContar(k, a, conteo, items[..n], c);
      }
      ConteoPaso(k, p, paso(p, items[n]).value, a, conteo, items[n], ContadoEn(a, items[..n], c), c, t);
    }
  }

  // ------------------------------------------------------------------ transfers

  function DespachoEn(o: AlmacenId, c: Celda, t: TipoMovimiento): Pedido -> real {
    (p: Pedido) => -Si(t == TRANSFERENCIA_SALIDA && Celda(o, p.variante) == c, p.cantidad)
  }

  lemma {:induction false} DespachosEn(ps: seq<Pedido>, o: AlmacenId, c: Celda, t: TipoMovimiento)
    ensures Suma(ps, DespachoEn(o, c, t)) == -Si(t == TRANSFERENCIA_SALIDA && o == c.almacen, Suma(ps, CantidadDe(c.variante)))
  {
    if |ps| > 0 {
      DespachosEn(ps[..|ps| - 1], o, c, t);
    }
  }

  lemma {:induction false} DespachoAsienta(k: Kardex, vs: map<VarianteId, Variante>, o: AlmacenId, d: AlmacenId, tr: nat, clave: string,
                                           p: Pedido, c: Celda, t: TipoMovimiento)
    requires DespachoDe(vs, o, d, tr, clave)(k, p).Ok?
    ensures EnLedger(c, t)(DespachoDe(vs, o, d, tr, clave)(k, p).value) == EnLedger(c, t)(k) + DespachoEn(o, c, t)(p)
  {
    var k' := DespachoDe(vs, o, d, tr, clave)(k, p).value;
    UnAsiento(k, k', k'.ledger[|k.ledger|], c, t);
  }

  lemma {:induction false} DespachosAsientan(k: Kardex, vs: map<VarianteId, Variante>, o: AlmacenId, d: AlmacenId, tr: nat, clave: string,
                                             ps: seq<Pedido>, c: Celda, t: TipoMovimiento)
    ensures var r := Plegar(k, ps, DespachoDe(vs, o, d, tr, clave));
      r.Ok? ==> EnLedger(c, t)(r.value) == EnLedger(c, t)(k) - Si(t == TRANSFERENCIA_SALIDA && o == c.almacen, Suma(ps, CantidadDe(c.variante)))
  {
    var paso := DespachoDe(vs, o, d, tr, clave);
    forall k: Kardex, p {:trigger paso(k, p)} | p in ps && paso(k, p).Ok?
      ensures EnLedger(c, t)(paso(k, p).value) == EnLedger(c, t)(k) + DespachoEn(o, c, t)(p) {
      DespachoAsienta(k, vs, o, d, tr, clave, p, c, t);
    }
    PlegarSuma(k, ps, paso, EnLedger(c, t), DespachoEn(o, c, t));
    DespachosEn(ps, o, c, t);
  }

  function LlegadaEn(ps: seq<Pedido>, d: AlmacenId, c: Celda, t: TipoMovimiento): Articulo -> real {
    (a: Articulo) => Si(t == TRANSFERENCIA_ENTRADA && Celda(d, a.variante) == c, Recibe(ps, a.variante))
  }

  lemma {:induction false} LlegadasEn(items: seq<Articulo>, ps: seq<Pedido>, d: AlmacenId, c: Celda, t: TipoMovimiento)
    requires VariantesDistintas(items)
    ensures Suma(items, LlegadaEn(ps, d, c, t))
         == Si(t == TRANSFERENCIA_ENTRADA && d == c.almacen && Lleva(items, c.variante), Recibe(ps, c.variante))
  {
    if |items| > 0 {
      var n := |items| - 1;
      LlegadasEn(items[..n], ps, d, c, t);
      LlevaUno(items, c.variante);
    }
  }

  lemma {:induction false} LlevaUno(items: seq<Articulo>, v: VarianteId)
    requires |items| > 0 && VariantesDistintas(items)
    ensures var n := |items| - 1;
      && (Lleva(items, v) <==> Lleva(items[..n], v) || items[n].variante == v)
      && !(Lleva(items[..n], v) && items[n].variante == v)
  {
    var n := |items| - 1;
    if Lleva(items[..n], v) {
      var i :| 0 <= i < n && items[..n][i].variante == v;
      assert items[i].variante == v;
    }
    if Lleva(items, v) && items[n].variante != v {
      var i :| 0 <= i < |items| && items[i].variante == v;
      assert items[..n][i].variante == v;
    }
  }

  lemma {:induction false} LlegadaAsienta(r: Recibido, ledger: seq<Asiento>, ps: seq<Pedido>, d: AlmacenId, tr: nat, clave: string,
                                          i: Articulo, c: Celda, t: TipoMovimiento)
    requires RecibirItem(ledger, ps, d, tr, clave)(r, i).Ok?
    ensures EnLedger(c, t)(RecibirItem(ledger, ps, d, tr, clave)(r, i).value.kardex) == EnLedger(c, t)(r.kardex) + LlegadaEn(ps, d, c, t)(i)
  {
    var k, k' := r.kardex, RecibirItem(ledger, ps, d, tr, clave)(r, i).value.kardex;
    if Recibe(ps, i.variante) != 0.0 {
      UnAsiento(k, k', k'.ledger[|k.ledger|], c, t);
    }
  }

  lemma {:induction false} LlegadasAsientan(k: Kardex, ledger: seq<Asiento>, ps: seq<Pedido>, d: AlmacenId, tr: nat, clave: string,
                                            items: seq<Articulo>, c: Celda, t: TipoMovimiento)
    ensures var r := Plegar(Recibido(k, []), items, RecibirItem(ledger, ps, d, tr, clave));
      r.Ok? ==> EnLedger(c, t)(r.value.kardex) == EnLedger(c, t)(k) + Suma(items, LlegadaEn(ps, d, c, t))
  {
    var paso, M := RecibirItem(ledger, ps, d, tr, clave), (r: Recibido) => EnLedger(c, t)(r.kardex);
    forall r: Recibido, i {:trigger paso(r, i)} | i in items && paso(r, i).Ok?
      ensures M(paso(r, i).value) == M(r) + LlegadaEn(ps, d, c, t)(i) {
      LlegadaAsienta(r, ledger, ps, d, tr, clave, i, c, t);
    }
    PlegarSuma(Recibido(k, []), items, paso, M, LlegadaEn(ps, d, c, t));
  }

  lemma {:induction false} SoloPositivosSuman(ps: seq<Pedido>, v: VarianteId)
    requires forall i :: 0 <= i < |ps| ==> ps[i].cantidad >= 0.0
    ensures Suma(SoloPositivos(ps), CantidadDe(v)) == Suma(ps, CantidadDe(v))
    ensures forall i :: 0 <= i < |SoloPositivos(ps)| ==> SoloPositivos(ps)[i].cantidad > 0.0
  {
    if |ps| > 0 {
      SoloPositivosSuman(ps[..|ps| - 1], v);
      assert SoloPositivos(ps[..|ps| - 1]) + [] == SoloPositivos(ps[..|ps| - 1]);
    }
  }

  /** Where each variant is named once, the quantity of one is the sum of those that name it. */
  lemma {:induction false} RecibeEsSuma(ps: seq<Pedido>, v: VarianteId)
    requires PedidosBien(ps)
    ensures Recibe(ps, v) == Suma(ps, CantidadDe(v))
  {
    if |ps| > 0 {
      var n := |ps| - 1;
      RecibeEsSuma(ps[..n], v);
      if ps[n].variante == v {
        SumaNula(ps[..n], CantidadDe(v));
      }
    }
  }

  /** What the service receives of a variant is all the request names of it. */
  lemma {:induction false} RecibeLoPedido(pedidos: seq<Pedido>, v: VarianteId)
    requires forall i :: 0 <= i < |pedidos| ==> pedidos[i].cantidad >= 0.0
    ensures Recibe(Consolidar(SoloPositivos(pedidos)), v) == Suma(pedidos, CantidadDe(v))
  {
    SoloPositivosSuman(pedidos, v);
    ConsolidarBien(SoloPositivos(pedidos), v);
    RecibeEsSuma(Consolidar(SoloPositivos(pedidos)), v);
  }

  function CanceladoEn(o: AlmacenId, c: Celda, t: TipoMovimiento): Articulo -> real {
    (a: Articulo) => Si(t == TRANSFERENCIA_ENTRADA && Celda(o, a.variante) == c && a.shippedQty > 0.0, a.shippedQty)
  }

  lemma {:induction false} CanceladosEn(items: seq<Articulo>, o: AlmacenId, c: Celda, t: TipoMovimiento)
    requires forall i :: 0 <= i < |items| ==> items[i].shippedQty > 0.0
    ensures Suma(items, CanceladoEn(o, c, t)) == Si(t == TRANSFERENCIA_ENTRADA && o == c.almacen, Suma(items, EnviadoDe(c.variante)))
  {
    if |items| > 0 {
      CanceladosEn(items[..|items| - 1], o, c, t);
    }
  }

  lemma {:induction false} CanceladosAsientan(k: Kardex, ledger: seq<Asiento>, o: AlmacenId, d: AlmacenId, tr: nat, items: seq<Articulo>,
                                              c: Celda, t: TipoMovimiento)
    ensures var r := Plegar(k, items, CancelarItem(ledger, o, d, tr));
      r.Ok? ==> EnLedger(c, t)(r.value) == EnLedger(c, t)(k) + Suma(items, CanceladoEn(o, c, t))
  {
    var paso := CancelarItem(ledger, o, d, tr);
    forall k: Kardex, i {:trigger paso(k, i)} | i in items && paso(k, i).Ok?
      ensures EnLedger(c, t)(paso(k, i).value) == EnLedger(c, t)(k) + CanceladoEn(o, c, t)(i) {
      if i.shippedQty > 0.0 {
        var a := paso(k, i).value.ledger[|k.ledger|];
        assert paso(k, i).value.ledger == k.ledger + [a] && (k.ledger + [a])[..|k.ledger|] == k.ledger;
      }
    }
    PlegarSuma(k, items, paso, EnLedger(c, t), CanceladoEn(o, c, t));
  }

  // ------------------------------------------------------------------ purchases, sales, refunds

  lemma {:induction false} CompraAsienta(e: Entrada, al: AlmacenId, recepcion: nat, i: ItemCompra, c: Celda, t: TipoMovimiento)
    requires IngresarItem(al, recepcion)(e, i).Ok?
    ensures EnLedger(c, t)(IngresarItem(al, recepcion)(e, i).value.kardex) == EnLedger(c, t)(e.kardex) + ComprasDe(al, c, t)(i)
  {
    var k' := IngresarItem(al, recepcion)(e, i).value.kardex;
    UnAsiento(e.kardex, k', k'.ledger[|e.kardex.ledger|], c, t);
  }

  lemma {:induction false} ComprasAsientan(e: Entrada, al: AlmacenId, recepcion: nat, items: seq<ItemCompra>, c: Celda, t: TipoMovimiento)
    ensures var r := Plegar(e, items, IngresarItem(al, recepcion));
      r.Ok? ==> EnLedger(c, t)(r.value.kardex) == EnLedger(c, t)(e.kardex) + Suma(items, ComprasDe(al, c, t))
  {
    var paso, M := IngresarItem(al, recepcion), (e: Entrada) => EnLedger(c, t)(e.kardex);
    forall e: Entrada, i {:trigger paso(e, i)} | i in items && paso(e, i).Ok? ensures M(paso(e, i).value) == M(e) + ComprasDe(al, c, t)(i) {
      CompraAsienta(e, al, recepcion, i, c, t);
    }
    PlegarSuma(e, items, paso, M, ComprasDe(al, c, t));
  }

  function ComprasDe(al: AlmacenId, c: Celda, t: TipoMovimiento): ItemCompra -> real {
    (i: ItemCompra) => Si(t == RECEPCION_COMPRA && Celda(al, i.variante) == c, i.cantidad)
  }

  lemma {:induction false} SumaSi<T>(xs: seq<T>, b: bool, f: T -> real, g: T -> real)
    requires forall i :: 0 <= i < |xs| ==> f(xs[i]) == Si(b, g(xs[i]))
    ensures Suma(xs, f) == Si(b, Suma(xs, g))
  {
    if |xs| > 0 {
      SumaSi(xs[..|xs| - 1], b, f, g);
    }
  }

  lemma {:induction false} AsientosEs(ledger: seq<Asiento>, filas: seq<Asiento>)
    ensures Plegar(ledger, filas, AsentarUno()).Ok? ==> Plegar(ledger, filas, AsentarUno()).value == ledger + filas
  {
    if |filas| == 0 {
      assert ledger + filas == ledger;
    } else if Plegar(ledger, filas, AsentarUno()).Ok? {
      AsientosEs(ledger, filas[..|filas| - 1]);
      assert ledger + filas == (ledger + filas[..|filas| - 1]) + [filas[|filas| - 1]];
    }
  }

  lemma {:induction false} FilasDeTipo(filas: seq<Asiento>, d: Celda, c: Celda, t: TipoMovimiento)
    requires forall i :: 0 <= i < |filas| ==> filas[i].celda == d && filas[i].tipo == VENTA
    ensures Suma(filas, DeTipo(c, t)) == Si(t == VENTA && d == c, Suma(filas, CantidadEn(d)))
  {
    if |filas| > 0 {
      FilasDeTipo(filas[..|filas| - 1], d, c, t);
    }
  }

  lemma {:induction false} LotesDeVenta(l: LineaStock, venta: nat, costo: real, consumos: seq<Consumo>)
    ensures forall i :: 0 <= i < |AsientosDeLotes(l, venta, costo, consumos)| ==> AsientosDeLotes(l, venta, costo, consumos)[i].tipo == VENTA
  {
    if |consumos| > 0 {
      LotesDeVenta(l, venta, costo, consumos[..|consumos| - 1]);
    }
  }

  /** However its lots split it, a line posts entries of a sale for minus its quantity. */
  lemma {:induction false} FilasDeVenta(l: LineaStock, venta: nat, costo: real, consumos: seq<Consumo>, c: Celda, t: TipoMovimiento)
    requires Suma(consumos, Consumida()) <= l.cantidad
    ensures Suma(AsientosVenta(l, venta, costo, consumos), DeTipo(c, t)) == -Si(t == VENTA && l.celda == c, l.cantidad)
  {
    AsientosVentaForma(l, venta, costo, consumos);
    AsientosVentaSuman(l, venta, costo, consumos, 0);
    LotesDeVenta(l, venta, costo, consumos);
    FilasDeTipo(AsientosVenta(l, venta, costo, consumos), l.celda, c, t);
  }

  lemma {:induction false} LineaAsienta(e: Existencias, l: LineaStock, permite: bool, venta: nat, hoy: nat, c: Celda, t: TipoMovimiento)
    requires l.cantidad > 0.0 && RegistrarLinea(e, l, permite, venta, hoy).Ok?
    ensures EnLedger(c, t)(RegistrarLinea(e, l, permite, venta, hoy).value.kardex)
         == EnLedger(c, t)(e.kardex) - Si(t == VENTA && l.celda == c, l.cantidad)
  {
    var costo, consumos := Fila(e.kardex, l.celda).costoPromedio, ConsumoDeLinea(e, l, permite, hoy).value;
    var filas := AsientosVenta(l, venta, costo, consumos);
    if l.celda in e.kardex.saldos {
      FEFOConsume(e.lotes, l.celda, l.cantidad, permite, hoy);
    }
    FilasDeVenta(l, venta, costo, consumos, c, t);
    AsientosEs(e.kardex.ledger, filas);
    SumaConcat(e.kardex.ledger, filas, DeTipo(c, t));
  }

  function VentasDe(vs: map<VarianteId, Variante>, c: Celda, t: TipoMovimiento): LineaStock -> real {
    (l: LineaStock) => -Si(t == VENTA && l.celda == c && c.variante in vs && vs[c.variante].isStockTracked, l.cantidad)
  }

  lemma {:induction false} VentaAsienta(e: Existencias, vs: map<VarianteId, Variante>, venta: nat, l: LineaStock, hoy: nat, c: Celda, t: TipoMovimiento)
    requires l.cantidad > 0.0 && VenderLinea(vs, venta, hoy)(e, l).Ok?
    ensures EnLedger(c, t)(VenderLinea(vs, venta, hoy)(e, l).value.kardex) == EnLedger(c, t)(e.kardex) + VentasDe(vs, c, t)(l)
  {
    if vs[l.celda.variante].isStockTracked {
      LineaAsienta(e, l, vs[l.celda.variante].allowNegativeStock, venta, hoy, c, t);
    }
  }

  lemma {:induction false} LineasAsientan(e: Existencias, vs: map<VarianteId, Variante>, venta: nat, lineas: seq<LineaStock>, hoy: nat,
                                          c: Celda, t: TipoMovimiento)
    requires LineasPositivas(lineas)
    ensures var r := Plegar(e, lineas, VenderLinea(vs, venta, hoy));
      r.Ok? ==> EnLedger(c, t)(r.value.kardex) == EnLedger(c, t)(e.kardex) + Suma(lineas, VentasDe(vs, c, t))
  {
    var paso, M := VenderLinea(vs, venta, hoy), (e: Existencias) => EnLedger(c, t)(e.kardex);
    forall e: Existencias, l {:trigger paso(e, l)} | l in lineas && paso(e, l).Ok? ensures M(paso(e, l).value) == M(e) + VentasDe(vs, c, t)(l) {
      VentaAsienta(e, vs, venta, l, hoy, c, t);
    }
    PlegarSuma(e, lineas, paso, M, VentasDe(vs, c, t));
  }

  lemma {:induction false} VentasMenos(lineas: seq<LineaStock>, vs: map<VarianteId, Variante>, c: Celda, t: TipoMovimiento)
    ensures Suma(lineas, VentasDe(vs, c, t)) == -Si(t == VENTA, Suma(lineas, VentaEn(vs, c)))
  {
    if |lineas| > 0 {
      VentasMenos(lineas[..|lineas| - 1], vs, c, t);
    }
  }

  function ReingresosDe(c: Celda, t: TipoMovimiento): Reingreso -> real {
    (r: Reingreso) => Si(t == DEVOLUCION_VENTA && r.celda == c, r.cantidad)
  }

  lemma {:induction false} ReingresoAsienta(k: Kardex, vs: map<VarianteId, Variante>, d: nat, i: Reingreso, c: Celda, t: TipoMovimiento)
    requires ReingresarUno(vs, d)(k, i).Ok?
    ensures EnLedger(c, t)(ReingresarUno(vs, d)(k, i).value) == EnLedger(c, t)(k) + ReingresosDe(c, t)(i)
  {
    var k' := ReingresarUno(vs, d)(k, i).value;
    UnAsiento(k, k', k'.ledger[|k.ledger|], c, t);
  }

  lemma {:induction false} ReingresosAsientan(k: Kardex, vs: map<VarianteId, Variante>, d: nat, items: seq<Reingreso>, c: Celda, t: TipoMovimiento)
    ensures var r := Plegar(k, items, ReingresarUno(vs, d));
      r.Ok? ==> EnLedger(c, t)(r.value) == EnLedger(c, t)(k) + Suma(items, ReingresosDe(c, t))
  {
    var paso := ReingresarUno(vs, d);
    forall k: Kardex, i {:trigger paso(k, i)} | i in items && paso(k, i).Ok?
      ensures EnLedger(c, t)(paso(k, i).value) == EnLedger(c, t)(k) + ReingresosDe(c, t)(i) {
      ReingresoAsienta(k, vs, d, i, c, t);
    }
    PlegarSuma(k, items, paso, EnLedger(c, t), ReingresosDe(c, t));
  }

  // ------------------------------------------------------------------ one request

  lemma {:induction false} AbrirAsienta(k: Kardex, d: Celda, q: real, costo: real, clave: Clave, c: Celda, t: TipoMovimiento)
    requires Abrir(k, d, q, costo, clave).Ok?
    ensures EnLedger(c, t)(Abrir(k, d, q, costo, clave).value) == EnLedger(c, t)(k) + Si(t == APERTURA && d == c, q)
  {
    var k' := Abrir(k, d, q, costo, clave).value;
    UnAsiento(k, k', k'.ledger[|k.ledger|], c, t);
  }

  /** The tables k hold, over those of s, exactly what the request asks for in cell c. */
  ghost predicate Asienta(s: Estado, k: Kardex, p: Peticion, c: Celda, t: TipoMovimiento) {
    EnLedger(c, t)(k) == EnLedger(c, t)(s.kardex) + Asentado(s, p, c, t)
  }

  lemma {:induction false} AjustarStockAsienta(s: Estado, d: Celda, esEntrada: bool, q: real, costo: Option<real>, clave: string, aleatorio: nat,
                                               c: Celda, t: TipoMovimiento)
    requires AjustarStock(s, d, esEntrada, q, costo, clave, aleatorio).Ok? && (clave == "" || !ClaveUsada(s.kardex.ledger, Ajuste(clave)))
    ensures Asienta(s, AjustarStock(s, d, esEntrada, q, costo, clave, aleatorio).value.kardex, PAjuste(d, esEntrada, q, costo, clave, aleatorio), c, t)
  {
    AjustarAsienta(s.kardex, d, esEntrada, q, costo, s.variantes[d.variante].allowNegativeStock, ClaveAjuste(d, clave, aleatorio), c, t);
  }

  lemma {:induction false} AperturaAsienta(s: Estado, d: Celda, q: real, costo: real, clave: string, c: Celda, t: TipoMovimiento)
    requires RegistrarStockInicial(s, d, q, costo, clave).Ok? && !ClaveUsada(s.kardex.ledger, Cliente(clave))
    ensures Asienta(s, RegistrarStockInicial(s, d, q, costo, clave).value.kardex, PStockInicial(d, q, costo, clave), c, t)
  {
    AbrirAsienta(s.kardex, d, q, costo, Cliente(clave), c, t);
  }

  lemma {:induction false} CatalogoAsienta(s: Estado, d: Celda, q: real, costo: real, c: Celda, t: TipoMovimiento)
    requires CargarStockInicial(s, d, q, costo).Ok?
    ensures Asienta(s, CargarStockInicial(s, d, q, costo).value.kardex, PStockCatalogo(d, q, costo), c, t)
  {
    AbrirAsienta(s.kardex, d, q, costo, Apertura(d.variante, d.almacen), c, t);
  }

  lemma {:induction false} ContabilizarAsienta(s: Estado, id: nat, c: Celda, t: TipoMovimiento)
    requires ContabilizarConteo(s, id).Ok? && ConteoLimpio(s.conteos[id].articulos)
    ensures Asienta(s, ContabilizarConteo(s, id).value.kardex, PContabilizar(id), c, t)
  {
    ConteoAsienta(s.kardex, s.conteos[id].almacen, id, s.conteos[id].articulos, c, t);
  }

  lemma {:induction false} DespachosSuman(k: Kardex, k': Kardex, vs: map<VarianteId, Variante>, o: AlmacenId, d: AlmacenId, tr: nat,
                                          clave: string, pedidos: seq<Pedido>, c: Celda, t: TipoMovimiento)
    requires Plegar(k, Consolidar(pedidos), DespachoDe(vs, o, d, tr, clave)) == Ok(k')
    requires forall i :: 0 <= i < |pedidos| ==> pedidos[i].cantidad > 0.0
    ensures EnLedger(c, t)(k') == EnLedger(c, t)(k) - Si(t == TRANSFERENCIA_SALIDA && o == c.almacen, Suma(pedidos, CantidadDe(c.variante)))
  {
    DespachosAsientan(k, vs, o, d, tr, clave, Consolidar(pedidos), c, t);
    ConsolidarBien(pedidos, c.variante);
  }

  lemma {:induction false} DespachosDe(s: Estado, o: AlmacenId, d: AlmacenId, pedidos: seq<Pedido>, clave: string, s': Estado)
    requires CrearTransferencia(s, o, d, pedidos, clave) == Ok(s') && !SalidaConClave(s.kardex.ledger, clave)
    ensures Plegar(s.kardex, Consolidar(pedidos), DespachoDe(s.variantes, o, d, |s.transferencias|, clave)) == Ok(s'.kardex)
  {
    var r := Plegar(s.kardex, Consolidar(pedidos), DespachoDe(s.variantes, o, d, |s.transferencias|, clave));
    assert r.Ok?;
  }

  lemma {:induction false} TransferirSuma(s: Estado, o: AlmacenId, d: AlmacenId, pedidos: seq<Pedido>, clave: string, s': Estado, c: Celda, t: TipoMovimiento)
    requires CrearTransferencia(s, o, d, pedidos, clave) == Ok(s') && !SalidaConClave(s.kardex.ledger, clave)
    ensures EnLedger(c, t)(s'.kardex) == EnLedger(c, t)(s.kardex) - Si(t == TRANSFERENCIA_SALIDA && o == c.almacen, Suma(pedidos, CantidadDe(c.variante)))
  {
    DespachosDe(s, o, d, pedidos, clave, s');
    DespachosSuman(s.kardex, s'.kardex, s.variantes, o, d, |s.transferencias|, clave, pedidos, c, t);
  }

  lemma {:induction false} TransferirAsienta(s: Estado, o: AlmacenId, d: AlmacenId, pedidos: seq<Pedido>, clave: string, c: Celda, t: TipoMovimiento)
    requires CrearTransferencia(s, o, d, pedidos, clave).Ok? && !SalidaConClave(s.kardex.ledger, clave)
    ensures Asienta(s, CrearTransferencia(s, o, d, pedidos, clave).value.kardex, PTransferir(o, d, pedidos, clave), c, t)
  {
    TransferirSuma(s, o, d, pedidos, clave, CrearTransferencia(s, o, d, pedidos, clave).value, c, t);
  }

  lemma {:induction false} LlegadasSuman(k: Kardex, r: Recibido, tr: Transferencia, ledger: seq<Asiento>, id: nat, pedidos: seq<Pedido>,
                                         clave: string, c: Celda, t: TipoMovimiento)
    requires VariantesDistintas(tr.articulos) && NingunoNegativo(pedidos)
    requires Plegar(Recibido(k, []), tr.articulos, RecibirItem(ledger, Consolidar(SoloPositivos(pedidos)), tr.destino, id, clave)) == Ok(r)
    ensures EnLedger(c, t)(r.kardex) == EnLedger(c, t)(k)
         + Si(t == TRANSFERENCIA_ENTRADA && tr.destino == c.almacen && Lleva(tr.articulos, c.variante), Suma(pedidos, CantidadDe(c.variante)))
  {
    var ps := Consolidar(SoloPositivos(pedidos));
    LlegadasAsientan(k, ledger, ps, tr.destino, id, clave, tr.articulos, c, t);
    LlegadasEn(tr.articulos, ps, tr.destino, c, t);
    RecibeLoPedido(pedidos, c.variante);
  }

  lemma {:induction false} LlegadasDe(s: Estado, id: nat, pedidos: seq<Pedido>, clave: string) returns (r: Recibido)
    requires RecibirTransferencia(s, id, pedidos, clave).Ok? && !EntradaConClave(s.kardex.ledger, clave)
    ensures NingunoNegativo(pedidos) && r.kardex == RecibirTransferencia(s, id, pedidos, clave).value.kardex
    ensures var tr := s.transferencias[id];
      Plegar(Recibido(s.kardex, []), tr.articulos, RecibirItem(s.kardex.ledger, Consolidar(SoloPositivos(pedidos)), tr.destino, id, clave)) == Ok(r)
  {
    var s' := RecibirTransferencia(s, id, pedidos, clave).value;
    r := Recibido(s'.kardex, s'.transferencias[id].articulos);
  }

  lemma {:induction false} RecibirAsienta(s: Estado, id: nat, pedidos: seq<Pedido>, clave: string, c: Celda, t: TipoMovimiento)
    requires RecibirTransferencia(s, id, pedidos, clave).Ok? && !EntradaConClave(s.kardex.ledger, clave)
    requires VariantesDistintas(s.transferencias[id].articulos)
    ensures Asienta(s, RecibirTransferencia(s, id, pedidos, clave).value.kardex, PRecibir(id, pedidos, clave), c, t)
  {
    var r := LlegadasDe(s, id, pedidos, clave);
    LlegadasSuman(s.kardex, r, s.transferencias[id], s.kardex.ledger, id, pedidos, clave, c, t);
  }

  lemma {:induction false} CanceladosSuman(k: Kardex, k': Kardex, tr: Transferencia, ledger: seq<Asiento>, id: nat, c: Celda, t: TipoMovimiento)
    requires Plegar(k, tr.articulos, CancelarItem(ledger, tr.origen, tr.destino, id)) == Ok(k')
    requires forall i :: 0 <= i < |tr.articulos| ==> tr.articulos[i].shippedQty > 0.0
    ensures EnLedger(c, t)(k') == EnLedger(c, t)(k) + Si(t == TRANSFERENCIA_ENTRADA && tr.origen == c.almacen, Suma(tr.articulos, EnviadoDe(c.variante)))
  {
    CanceladosAsientan(k, ledger, tr.origen, tr.destino, id, tr.articulos, c, t);
    CanceladosEn(tr.articulos, tr.origen, c, t);
  }

  lemma {:induction false} CancelarAsienta(s: Estado, id: nat, c: Celda, t: TipoMovimiento)
    requires CancelarTransferencia(s, id).Ok?
    requires forall i :: 0 <= i < |s.transferencias[id].articulos| ==> s.transferencias[id].articulos[i].shippedQty > 0.0
    ensures Asienta(s, CancelarTransferencia(s, id).value.kardex, PCancelar(id), c, t)
  {
    CanceladosSuman(s.kardex, CancelarTransferencia(s, id).value.kardex, s.transferencias[id], s.kardex.ledger, id, c, t);
  }

  lemma {:induction false} ComprasSuman(e: Entrada, e': Entrada, a: AlmacenId, recepcion: nat, items: seq<ItemCompra>, c: Celda, t: TipoMovimiento)
    requires Plegar(e, items, IngresarItem(a, recepcion)) == Ok(e')
    ensures EnLedger(c, t)(e'.kardex) == EnLedger(c, t)(e.kardex) + Si(t == RECEPCION_COMPRA, Suma(items, CompraEn(a, c)))
  {
    ComprasAsientan(e, a, recepcion, items, c, t);
    SumaSi(items, t == RECEPCION_COMPRA, ComprasDe(a, c, t), CompraEn(a, c));
  }

  lemma {:induction false} RecepcionarAsienta(s: Estado, clave: string, numero: string, a: AlmacenId, items: seq<ItemCompra>, c: Celda, t: TipoMovimiento)
    requires Recepcionar(s, clave, numero, a, items).Ok? && !RecepcionConClave(s.recepciones, clave)
    ensures Asienta(s, Recepcionar(s, clave, numero, a, items).value.kardex, PRecepcion(clave, numero, a, items), c, t)
  {
    var s' := Recepcionar(s, clave, numero, a, items).value;
    ComprasSuman(Entrada(s.kardex, s.lotes, s.recibidos), Entrada(s'.kardex, s'.lotes, s'.recibidos), a, |s.recepciones|, items, c, t);
  }

  lemma {:induction false} VenderAsienta(s: Estado, venta: nat, lineas: seq<LineaStock>, hoy: nat, c: Celda, t: TipoMovimiento)
    requires Vender(s, venta, lineas, hoy).Ok?
    ensures Asienta(s, Vender(s, venta, lineas, hoy).value.kardex, PVenta(venta, lineas, hoy), c, t)
  {
    LineasAsientan(Existencias(s.kardex, s.lotes), s.variantes, venta, lineas, hoy, c, t);
    VentasMenos(lineas, s.variantes, c, t);
  }

  lemma {:induction false} DevolverAsienta(s: Estado, d: nat, items: seq<Reingreso>, c: Celda, t: TipoMovimiento)
    requires ReingresarStock(s, d, items).Ok?
    ensures Asienta(s, ReingresarStock(s, d, items).value.kardex, PDevolucion(d, items), c, t)
  {
    ReingresosAsientan(s.kardex, s.variantes, d, items, c, t);
    SumaSi(items, t == DEVOLUCION_VENTA, ReingresosDe(c, t), ReingresoEn(c));
  }

  lemma {:induction false} TransferenciaLimpia(k: Kardex, tr: Transferencia)
    requires TransferenciaBien(k, tr)
    ensures VariantesDistintas(tr.articulos) && forall i :: 0 <= i < |tr.articulos| ==> tr.articulos[i].shippedQty > 0.0
  {
    forall i | 0 <= i < |tr.articulos| ensures tr.articulos[i].shippedQty > 0.0 {
      assert ArticuloBien(k, tr.origen, tr.destino, tr.articulos[i]);
    }
  }

  lemma {:induction false} TransferenciaAsienta(s: Estado, p: Peticion, c: Celda, t: TipoMovimiento)
    requires TransitoCuadra(s.kardex, s.transferencias) && EsTransferencia(p) && Atender(s, p).Ok? && EsNueva(s, p)
    ensures Asienta(s, Atender(s, p).value.kardex, p, c, t)
  {
    match p
    case PTransferir(o, d, pedidos, clave) => TransferirAsienta(s, o, d, pedidos, clave, c, t);
    case PRecibir(id, pedidos, clave) =>
      TransferenciaLimpia(s.kardex, s.transferencias[id]);
      RecibirAsienta(s, id, pedidos, clave, c, t);
    case PCancelar(id) =>
      TransferenciaLimpia(s.kardex, s.transferencias[id]);
      CancelarAsienta(s, id, c, t);
  }

  lemma {:induction false} DocumentoAsienta(s: Estado, p: Peticion, c: Celda, t: TipoMovimiento)
    requires (p.PRecepcion? || p.PVenta? || p.PDevolucion?) && Atender(s, p).Ok? && EsNueva(s, p)
    ensures Asienta(s, Atender(s, p).value.kardex, p, c, t)
  {
    match p
    case PRecepcion(clave, numero, a, items) => RecepcionarAsienta(s, clave, numero, a, items, c, t);
    case PVenta(venta, lineas, hoy) => VenderAsienta(s, venta, lineas, hoy, c, t);
    case PDevolucion(d, items) => DevolverAsienta(s, d, items, c, t);
  }

  lemma {:induction false} AlmacenAsienta(s: Estado, p: Peticion, c: Celda, t: TipoMovimiento)
    requires (p.PStockInicial? || p.PStockCatalogo? || p.PAjuste? || p.PContabilizar?) && Atender(s, p).Ok? && EsNueva(s, p)
    requires forall i :: 0 <= i < |s.conteos| ==> ConteoBien(s.variantes, s.conteos[i].articulos)
    ensures Asienta(s, Atender(s, p).value.kardex, p, c, t)
  {
    match p
    case PStockInicial(d, q, costo, clave) => AperturaAsienta(s, d, q, costo, clave, c, t);
    case PStockCatalogo(d, q, costo) => CatalogoAsienta(s, d, q, costo, c, t);
    case PAjuste(d, e, q, costo, clave, aleatorio) => AjustarStockAsienta(s, d, e, q, costo, clave, aleatorio, c, t);
    case PContabilizar(id) =>
      assert ConteoBien(s.variantes, s.conteos[id].articulos);
      ContabilizarAsienta(s, id, c, t);
  }

  lemma {:induction false} SinAsientos(s: Estado, p: Peticion, c: Celda, t: TipoMovimiento)
    requires Atender(s, p).Ok? && (p.PNivel? || (!EsMovimiento(p) && !EsTransferencia(p)))
    ensures Asienta(s, Atender(s, p).value.kardex, p, c, t)
  {
  }

  /** A retry commits and changes nothing. */
  lemma {:induction false} ReintentoNada(s: Estado, p: Peticion)
    requires Atender(s, p).Ok? && !EsNueva(s, p)
    ensures Atender(s, p).value == s
  {
  }

  lemma {:induction false} NuevaAsienta(s: Estado, p: Peticion, c: Celda, t: TipoMovimiento)
    requires Valido(s) && Atender(s, p).Ok? && EsNueva(s, p)
    ensures Asienta(s, Atender(s, p).value.kardex, p, c, t)
  {
    if EsTransferencia(p) {
      TransferenciaAsienta(s, p, c, t);
    } else if p.PRecepcion? || p.PVenta? || p.PDevolucion? {
      DocumentoAsienta(s, p, c, t);
    } else if p.PStockInicial? || p.PStockCatalogo? || p.PAjuste? || p.PContabilizar? {
      AlmacenAsienta(s, p, c, t);
    } else {
      SinAsientos(s, p, c, t);
    }
  }

  lemma {:induction false} EfectoDe(s: Estado, s': Estado, p: Peticion, c: Celda, t: TipoMovimiento)
    requires Atender(s, p) == Ok(s') && (if EsNueva(s, p) then Asienta(s, s'.kardex, p, c, t) else s' == s)
    ensures EnLedger(c, t)(s'.kardex) == EnLedger(c, t)(s.kardex) + Efecto(s, p, c, t)
  {
  }

  /** Each request posts in each cell exactly what it asks for, of the kind it is, or nothing when it is
      refused or a retry. */
  lemma {:induction false} PasoAsienta(s: Estado, p: Peticion, c: Celda, t: TipoMovimiento)
    requires Valido(s)
    ensures EnLedger(c, t)(Paso(s, p).kardex) == EnLedger(c, t)(s.kardex) + Efecto(s, p, c, t)
  {
    var r := Atender(s, p);
    if r.Ok? {
      if EsNueva(s, p) {
        NuevaAsienta(s, p, c, t);
      } else {
        ReintentoNada(s, p);
      }
      EfectoDe(s, r.value, p, c, t);
    }
  }

  // ------------------------------------------------------------------ every run

  function LoPedido(ps: seq<Peticion>, c: Celda, t: TipoMovimiento): real {
    if |ps| == 0 then 0.0
    else LoPedido(ps[..|ps| - 1], c, t) + Efecto(Correr(INICIAL, ps[..|ps| - 1]), ps[|ps| - 1], c, t)
  }

  /** After any run the entries of each kind in each cell add up to what the requests of that kind asked
      for there: openings and receipts in, adjustments in their direction, transfers out of the origin and
      into the destination, sales out, refunds in, counts by their difference. */
  lemma {:induction false} LedgerEsLoPedido(ps: seq<Peticion>, c: Celda, t: TipoMovimiento)
    ensures Suma(Correr(INICIAL, ps).kardex.ledger, DeTipo(c, t)) == LoPedido(ps, c, t)
  {
    if |ps| > 0 {
      var s := Correr(INICIAL, ps[..|ps| - 1]);
      LedgerEsLoPedido(ps[..|ps| - 1], c, t);
      InicialValido();
      CorrerMantiene(INICIAL, ps[..|ps| - 1]);
      PasoAsienta(s, ps[|ps| - 1], c, t);
    }
  }
}
