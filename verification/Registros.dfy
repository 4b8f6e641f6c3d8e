/** What counts, transfers and receipts put on record, row by row: the expected and counted quantities, the
    articles shipped and received, the lines of a receipt and the lots they enter. */
module Registros {
  import opened Comun
  import opened Sumas
  import opened Kardex
  import opened Movimientos
  import opened Lotes
  import opened Existencias
  import opened Inventario
  import opened Invariante
  import opened Guardas

  // ------------------------------------------------------------------ counts

  /** A count opens over the rows of its warehouse whose stock is kept, each once, at the stock they hold. */
  ghost predicate ConteoAbiertoSobre(s: Estado, almacen: AlmacenId, c: ConteoFisico) {
    && c.almacen == almacen && c.estado == EN_PROGRESO
    && (forall i, j :: 0 <= i < j < |c.articulos| ==> c.articulos[i].variante != c.articulos[j].variante)
    && (forall i :: 0 <= i < |c.articulos| ==>
          var item := c.articulos[i];
          && Celda(almacen, item.variante) in s.kardex.saldos && Inventariable(s.variantes, item.variante)
          && item.esperada == s.kardex.saldos[Celda(almacen, item.variante)].enStock && item.contada == None && item.diferencia == None)
    && (forall d :: d in s.kardex.saldos && d.almacen == almacen && Inventariable(s.variantes, d.variante) ==>
          exists i :: 0 <= i < |c.articulos| && c.articulos[i].variante == d.variante)
  }

  lemma {:induction false} FotoExacta(k: Kardex, almacen: AlmacenId, orden: seq<VarianteId>)
    ensures var r := FotoDe(k, almacen, orden);
      |r| == |orden| && forall i :: 0 <= i < |orden| ==>
        r[i] == ItemConteo(orden[i], Fila(k, Celda(almacen, orden[i])).enStock, None, None)
  {
    if |orden| > 0 {
      FotoExacta(k, almacen, orden[..|orden| - 1]);
    }
  }

  lemma {:induction false} CrearConteoDeja(s: Estado, almacen: AlmacenId, orden: seq<VarianteId>)
    requires CrearConteo(s, almacen, orden).Ok?
    ensures var s', n := CrearConteo(s, almacen, orden).value, |s.conteos|;
      && almacen in s.almacenes && s.almacenes[almacen]
      && s' == s.(conteos := s'.conteos) && |s'.conteos| == n + 1 && s'.conteos[..n] == s.conteos
      && ConteoAbiertoSobre(s, almacen, s'.conteos[n])
  {
    var r := FotoDe(s.kardex, almacen, orden);
    FotoExacta(s.kardex, almacen, orden);
    forall d | d in s.kardex.saldos && d.almacen == almacen && Inventariable(s.variantes, d.variante)
      ensures exists i :: 0 <= i < |r| && r[i].variante == d.variante {
      assert d.variante in orden;
      var i :| 0 <= i < |orden| && orden[i] == d.variante;
      assert r[i].variante == d.variante;
    }
    forall i | 0 <= i < |r| ensures Celda(almacen, r[i].variante) in s.kardex.saldos && Inventariable(s.variantes, r[i].variante) {
      assert orden[i] in orden;
    }
  }

  /** What a request last says was counted of a variant. */
  function UltimaContada(ps: seq<Pedido>, v: VarianteId): Option<real> {
    if |ps| == 0 then None
    else if ps[|ps| - 1].variante == v then Some(ps[|ps| - 1].cantidad)
    else UltimaContada(ps[..|ps| - 1], v)
  }

  predicate EnConteo(items: seq<ItemConteo>, v: VarianteId) {
    exists i :: 0 <= i < |items| && items[i].variante == v
  }

  /** An item that was named holds what was counted and how far that is from what was expected. */
  predicate Anotado(item: ItemConteo, item': ItemConteo, ps: seq<Pedido>) {
    && item'.variante == item.variante && item'.esperada == item.esperada
    && match UltimaContada(ps, item.variante)
       case None => item' == item
       case Some(q) => item'.contada == Some(q) && item'.diferencia == Some(q - item.esperada)
  }

  /** The items of a count after some quantities were recorded: those it had, in place, and one for each
      variant it did not have, expected at nothing. */
  ghost predicate AnotadoTodo(antes: seq<ItemConteo>, despues: seq<ItemConteo>, ps: seq<Pedido>) {
    && |antes| <= |despues|
    && (forall i, j :: 0 <= i < j < |despues| ==> despues[i].variante != despues[j].variante)
    && (forall i :: 0 <= i < |antes| ==> Anotado(antes[i], despues[i], ps))
    && (forall i :: |antes| <= i < |despues| ==> Anotado(ItemConteo(despues[i].variante, 0.0, None, None), despues[i], ps) && despues[i].contada.Some?)
    && (forall v :: UltimaContada(ps, v).Some? ==> EnConteo(despues, v))
  }

  lemma {:induction false} UltimaNueva(ps: seq<Pedido>, v: VarianteId)
    requires |ps| > 0
    ensures UltimaContada(ps, v) == if ps[|ps| - 1].variante == v then Some(ps[|ps| - 1].cantidad) else UltimaContada(ps[..|ps| - 1], v)
  {
  }

  lemma {:induction false} EnConteoQueda(items: seq<ItemConteo>, items': seq<ItemConteo>, v: VarianteId)
    requires EnConteo(items, v) && |items| <= |items'|
    requires forall i :: 0 <= i < |items| ==> items'[i].variante == items[i].variante
    ensures EnConteo(items', v)
  {
    var i :| 0 <= i < |items| && items[i].variante == v;
    assert items'[i].variante == v;
  }

  lemma {:induction false} AnotarUna(vs: map<VarianteId, Variante>, antes: seq<ItemConteo>, items: seq<ItemConteo>, ps: seq<Pedido>)
    requires |ps| > 0 && AnotadoTodo(antes, items, ps[..|ps| - 1]) && AnotarContada(vs)(items, ps[|ps| - 1]).Ok?
    ensures AnotadoTodo(antes, AnotarContada(vs)(items, ps[|ps| - 1]).value, ps)
  {
    var p, items' := ps[|ps| - 1], AnotarContada(vs)(items, ps[|ps| - 1]).value;
    forall i | 0 <= i < |antes| ensures Anotado(antes[i], items'[i], ps) {
      assert Anotado(antes[i], items[i], ps[..|ps| - 1]);
      UltimaNueva(ps, antes[i].variante);
    }
    forall i | |antes| <= i < |items'|
      ensures Anotado(ItemConteo(items'[i].variante, 0.0, None, None), items'[i], ps) && items'[i].contada.Some? {
      UltimaNueva(ps, items'[i].variante);
      if i < |items| {
        assert Anotado(ItemConteo(items[i].variante, 0.0, None, None), items[i], ps[..|ps| - 1]);
      }
    }
    forall v | UltimaContada(ps, v).Some? ensures EnConteo(items', v) {
      if v == p.variante {
        match IndiceItem(items, v)
        case Some(i) => assert items'[i].variante == v;
        case None => assert items'[|items|].variante == v;
      } else {
        EnConteoQueda(items, items', v);
      }
    }
  }

  lemma {:induction false} AnotarTodas(vs: map<VarianteId, Variante>, antes: seq<ItemConteo>, ps: seq<Pedido>)
    requires forall i, j :: 0 <= i < j < |antes| ==> antes[i].variante != antes[j].variante
    ensures var r := Plegar(antes, ps, AnotarContada(vs));
      && (r.Ok? <==> forall i :: 0 <= i < |ps| ==> EnConteo(antes, ps[i].variante) || VarianteActiva(vs, ps[i].variante))
      && (r.Ok? ==> AnotadoTodo(antes, r.value, ps))
  {
    if |ps| > 0 {
      var n := |ps| - 1;
      AnotarTodas(vs, antes, ps[..n]);
      var r := Plegar(antes, ps[..n], AnotarContada(vs));
      assert forall i :: 0 <= i < n ==> ps[..n][i] == ps[i];
      if r.Ok? {
        AnotaSii(vs, antes, r.value, ps);
        if AnotarContada(vs)(r.value, ps[n]).Ok? {
          AnotarUna(vs, antes, r.value, ps);
        }
      }
    }
  }

  /** A variant the request has already added is active, so asking for it again is no new question. */
  lemma {:induction false} AnotaSii(vs: map<VarianteId, Variante>, antes: seq<ItemConteo>, items: seq<ItemConteo>, ps: seq<Pedido>)
    requires |ps| > 0 && AnotadoTodo(antes, items, ps[..|ps| - 1])
    requires forall i :: 0 <= i < |ps| - 1 ==> EnConteo(antes, ps[i].variante) || VarianteActiva(vs, ps[i].variante)
    ensures AnotarContada(vs)(items, ps[|ps| - 1]).Ok? <==> EnConteo(antes, ps[|ps| - 1].variante) || VarianteActiva(vs, ps[|ps| - 1].variante)
  {
    var n, v := |ps| - 1, ps[|ps| - 1].variante;
    if EnConteo(antes, v) {
      assert forall i :: 0 <= i < |antes| ==> Anotado(antes[i], items[i], ps[..n]);
      EnConteoQueda(antes, items, v);
      var i :| 0 <= i < |items| && items[i].variante == v;
    }
    match IndiceItem(items, v)
    case None =>
    case Some(i) =>
      if i < |antes| {
        assert Anotado(antes[i], items[i], ps[..n]);
        assert EnConteo(antes, v);
      } else {
        assert Anotado(ItemConteo(v, 0.0, None, None), items[i], ps[..n]);
        NombradaAntes(ps[..n], v);
        var j :| 0 <= j < n && ps[..n][j].variante == v;
        assert ps[j].variante == v;
      }
  }

  lemma {:induction false} NombradaAntes(ps: seq<Pedido>, v: VarianteId)
    requires UltimaContada(ps, v).Some?
    ensures exists j :: 0 <= j < |ps| && ps[j].variante == v
  {
    var n := |ps| - 1;
    if ps[n].variante != v {
      NombradaAntes(ps[..n], v);
      var j :| 0 <= j < n && ps[..n][j].variante == v;
      assert ps[j].variante == v;
    }
  }

  /** Quantities are recorded exactly when none is negative, the count is open and every variant is on it or
      on sale; then each item named holds the last quantity said of it. */
  lemma {:induction false} RegistrarConteoSii(s: Estado, id: nat, contadas: seq<Pedido>)
    requires id < |s.conteos| ==> ConteoBien(s.variantes, s.conteos[id].articulos)
    ensures RegistrarConteo(s, id, contadas).Ok? <==>
      && |contadas| > 0 && (forall i :: 0 <= i < |contadas| ==> contadas[i].cantidad >= 0.0)
      && id < |s.conteos| && (s.conteos[id].estado == EN_PROGRESO || s.conteos[id].estado == ENVIADO)
      && forall i :: 0 <= i < |contadas| ==>
           EnConteo(s.conteos[id].articulos, contadas[i].variante) || VarianteActiva(s.variantes, contadas[i].variante)
    ensures RegistrarConteo(s, id, contadas).Ok? ==>
      var s' := RegistrarConteo(s, id, contadas).value;
      && s' == s.(conteos := s.conteos[id := s'.conteos[id]]) && s'.conteos[id].almacen == s.conteos[id].almacen
      && s'.conteos[id].estado == s.conteos[id].estado && AnotadoTodo(s.conteos[id].articulos, s'.conteos[id].articulos, contadas)
  {
    if id < |s.conteos| {
      AnotarTodas(s.variantes, s.conteos[id].articulos, contadas);
    }
  }

  /** A posted item says what the stock was and how far the count was from it. */
  predicate Contabilizado(k: Kardex, almacen: AlmacenId, item: ItemConteo, item': ItemConteo) {
    && item'.variante == item.variante && item'.contada == item.contada
    && match item.contada
       case None => item' == item
       case Some(q) =>
         var vivo := Fila(k, Celda(almacen, item.variante)).enStock;
         item'.esperada == vivo && item'.diferencia == Some(q - vivo)
  }

  lemma {:induction false} ItemContabilizado(k: Kardex, x: Contado, almacen: AlmacenId, conteo: nat, item: ItemConteo)
    requires ContarItem(almacen, conteo)(x, item).Ok?
    requires Fila(x.kardex, Celda(almacen, item.variante)) == Fila(k, Celda(almacen, item.variante))
    ensures var r := ContarItem(almacen, conteo)(x, item).value;
      && |r.articulos| == |x.articulos| + 1 && r.articulos[..|x.articulos|] == x.articulos
      && Contabilizado(k, almacen, item, r.articulos[|x.articulos|])
      && forall v :: v != item.variante ==> Fila(r.kardex, Celda(almacen, v)) == Fila(x.kardex, Celda(almacen, v))
  {
  }

  lemma {:induction false} TodosContabilizados(k: Kardex, almacen: AlmacenId, conteo: nat, items: seq<ItemConteo>)
    requires forall i, j :: 0 <= i < j < |items| ==> items[i].variante != items[j].variante
    requires Plegar(Contado(k, []), items, ContarItem(almacen, conteo)).Ok?
    ensures var r := Plegar(Contado(k, []), items, ContarItem(almacen, conteo)).value;
      && |r.articulos| == |items| && (forall i :: 0 <= i < |items| ==> Contabilizado(k, almacen, items[i], r.articulos[i]))
      && forall v :: !EnConteo(items, v) ==> Fila(r.kardex, Celda(almacen, v)) == Fila(k, Celda(almacen, v))
  {
    if |items| > 0 {
      var n := |items| - 1;
      var p := Plegar(Contado(k, []), items[..n], ContarItem(almacen, conteo));
      assert p.Ok?;
      TodosContabilizados(k, almacen, conteo, items[..n]);
      assert !EnConteo(items[..n], items[n].variante);
      ItemContabilizado(k, p.value, almacen, conteo, items[n]);
      var r := Plegar(Contado(k, []), items, ContarItem(almacen, conteo)).value;
      forall i | 0 <= i < |items| ensures Contabilizado(k, almacen, items[i], r.articulos[i]) {
        if i < n {
          assert Contabilizado(k, almacen, items[..n][i], p.value.articulos[i]);
        }
      }
      forall v | !EnConteo(items, v) ensures Fila(r.kardex, Celda(almacen, v)) == Fila(k, Celda(almacen, v)) {
        assert items[n].variante != v;
        assert !EnConteo(items[..n], v) by {
          assert forall i :: 0 <= i < n ==> items[..n][i] == items[i];
        }
      }
    }
  }

  /** A count that is posted is closed, and each counted item says what the stock was when it was. */
  lemma {:induction false} ContabilizarDeja(s: Estado, id: nat)
    requires ContabilizarConteo(s, id).Ok? && ConteoBien(s.variantes, s.conteos[id].articulos)
    ensures var s', c := ContabilizarConteo(s, id).value, s.conteos[id];
      && s' == s.(kardex := s'.kardex, conteos := s.conteos[id := s'.conteos[id]])
      && s'.conteos[id].almacen == c.almacen && s'.conteos[id].estado == CONTABILIZADO && |s'.conteos[id].articulos| == |c.articulos|
      && forall i :: 0 <= i < |c.articulos| ==> Contabilizado(s.kardex, c.almacen, c.articulos[i], s'.conteos[id].articulos[i])
  {
    TodosContabilizados(s.kardex, s.conteos[id].almacen, id, s.conteos[id].articulos);
  }

  /** Any count that was not posted can be cancelled, and only its state changes. */
  lemma {:induction false} CancelarConteoSii(s: Estado, id: nat)
    ensures CancelarConteo(s, id).Ok? <==> id < |s.conteos| && s.conteos[id].estado != CONTABILIZADO
    ensures CancelarConteo(s, id).Ok? ==>
      CancelarConteo(s, id).value == s.(conteos := s.conteos[id := s.conteos[id].(estado := CANCELADO)])
  {
  }

  // ------------------------------------------------------------------ transfers

  /** A new transfer carries each variant once, for the sum of what was asked of it, none of it received. */
  ghost predicate TransferenciaPedida(t: Transferencia, o: AlmacenId, d: AlmacenId, pedidos: seq<Pedido>) {
    && t.origen == o && t.destino == d && t.estado == EN_TRANSITO && VariantesDistintas(t.articulos)
    && (forall i :: 0 <= i < |t.articulos| ==> t.articulos[i].receivedQty == 0.0 && t.articulos[i].shippedQty > 0.0)
    && (forall v :: Suma(t.articulos, EnviadoDe(v)) == Suma(pedidos, CantidadDe(v)))
  }

  lemma {:induction false} ArticulosEnvian(ps: seq<Pedido>, v: VarianteId)
    ensures Suma(ArticulosDe(ps), EnviadoDe(v)) == Suma(ps, CantidadDe(v))
  {
    if |ps| > 0 {
      ArticulosEnvian(ps[..|ps| - 1], v);
    }
  }

  lemma {:induction false} TransferirDeja(s: Estado, o: AlmacenId, d: AlmacenId, pedidos: seq<Pedido>, clave: string)
    requires CrearTransferencia(s, o, d, pedidos, clave).Ok? && !SalidaConClave(s.kardex.ledger, clave)
    ensures var s', n := CrearTransferencia(s, o, d, pedidos, clave).value, |s.transferencias|;
      && s' == s.(kardex := s'.kardex, transferencias := s'.transferencias)
      && |s'.transferencias| == n + 1 && s'.transferencias[..n] == s.transferencias
      && TransferenciaPedida(s'.transferencias[n], o, d, pedidos)
  {
    var ps := Consolidar(pedidos);
    ConsolidarBien(pedidos, 0);
    forall v ensures Suma(ArticulosDe(ps), EnviadoDe(v)) == Suma(pedidos, CantidadDe(v)) {
      ConsolidarBien(pedidos, v);
      ArticulosEnvian(ps, v);
    }
  }

  // ------------------------------------------------------------------ receipts

  /** Row i of a receipt is its line i. */
  predicate FilaDeCompra(r: ItemRecepcion, item: ItemCompra, recepcion: nat, almacen: AlmacenId) {
    && r.recepcion == recepcion && r.celda == Celda(almacen, item.variante) && r.cantidad == item.cantidad
    && r.costoUnitario == item.costoUnitario && r.lotNumber == item.lotNumber && r.venceEn == item.venceEn
  }

  /** A line with a lot number enters its lot: the one of that cell and number gains the quantity, and takes
      the expiry date if the line has one; without such a lot it is a new one. Other lots stay. */
  ghost predicate EntraEnLote(lotes: seq<Lote>, lotes': seq<Lote>, c: Celda, numero: string, cantidad: real, venceEn: Option<nat>) {
    if exists i :: 0 <= i < |lotes| && lotes[i].celda == c && lotes[i].numero == numero then
      exists i :: 0 <= i < |lotes| == |lotes'| && lotes[i].celda == c && lotes[i].numero == numero
        && lotes'[i] == Lote(c, numero, lotes[i].cantidad + cantidad, if venceEn.Some? then venceEn else lotes[i].venceEn)
        && forall j :: 0 <= j < |lotes| && j != i ==> lotes'[j] == lotes[j]
    else lotes' == lotes + [Lote(c, numero, cantidad, venceEn)]
  }

  lemma {:induction false} RegistrarLoteEntra(lotes: seq<Lote>, c: Celda, numero: string, cantidad: real, venceEn: Option<nat>)
    ensures EntraEnLote(lotes, RegistrarLote(lotes, c, numero, cantidad, venceEn), c, numero, cantidad, venceEn)
  {
    match BuscarLote(lotes, c, numero)
    case Some(i) => assert EsLote(lotes[i], c, numero);
    case None => assert forall j :: 0 <= j < |lotes| ==> !EsLote(lotes[j], c, numero);
  }

  /** A line of a receipt enters the lot it names, if it names one. */
  lemma {:induction false} CompraEntraEnLote(e: Entrada, almacen: AlmacenId, recepcion: nat, item: ItemCompra)
    requires IngresarItem(almacen, recepcion)(e, item).Ok?
    ensures var e' := IngresarItem(almacen, recepcion)(e, item).value;
      if item.lotNumber == "" then e'.lotes == e.lotes
      else EntraEnLote(e.lotes, e'.lotes, Celda(almacen, item.variante), item.lotNumber, item.cantidad, item.venceEn)
  {
    RegistrarLoteEntra(e.lotes, Celda(almacen, item.variante), item.lotNumber, item.cantidad, item.venceEn);
  }

  lemma {:induction false} CompraFila(e: Entrada, almacen: AlmacenId, recepcion: nat, item: ItemCompra)
    requires IngresarItem(almacen, recepcion)(e, item).Ok?
    ensures var r, r' := e.recibidos, IngresarItem(almacen, recepcion)(e, item).value.recibidos;
      |r'| == |r| + 1 && r'[..|r|] == r && FilaDeCompra(r'[|r|], item, recepcion, almacen)
  {
  }

  /** The rows after `antes` are those of the lines. */
  predicate FilasDeCompra(antes: seq<ItemRecepcion>, r: seq<ItemRecepcion>, items: seq<ItemCompra>, recepcion: nat, almacen: AlmacenId) {
    && |r| == |antes| + |items| && r[..|antes|] == antes
    && forall i :: 0 <= i < |items| ==> FilaDeCompra(r[|antes| + i], items[i], recepcion, almacen)
  }

  lemma {:induction false} UnaFilaMas(antes: seq<ItemRecepcion>, p: seq<ItemRecepcion>, r: seq<ItemRecepcion>, items: seq<ItemCompra>,
                                      recepcion: nat, almacen: AlmacenId)
    requires |items| > 0 && FilasDeCompra(antes, p, items[..|items| - 1], recepcion, almacen)
    requires |r| == |p| + 1 && r[..|p|] == p && FilaDeCompra(r[|p|], items[|items| - 1], recepcion, almacen)
    ensures FilasDeCompra(antes, r, items, recepcion, almacen)
  {
    var m := |items| - 1;
    forall i | 0 <= i < |items| ensures FilaDeCompra(r[|antes| + i], items[i], recepcion, almacen) {
      if i < m {
        assert FilaDeCompra(p[|antes| + i], items[..m][i], recepcion, almacen);
        assert r[|antes| + i] == p[|antes| + i];
      }
    }
  }

  lemma {:induction false} ComprasDejan(e: Entrada, almacen: AlmacenId, recepcion: nat, items: seq<ItemCompra>)
    requires Plegar(e, items, IngresarItem(almacen, recepcion)).Ok?
    ensures FilasDeCompra(e.recibidos, Plegar(e, items, IngresarItem(almacen, recepcion)).value.recibidos, items, recepcion, almacen)
  {
    if |items| > 0 {
      var m := |items| - 1;
      var p := Plegar(e, items[..m], IngresarItem(almacen, recepcion));
      assert p.Ok?;
      ComprasDejan(e, almacen, recepcion, items[..m]);
      CompraFila(p.value, almacen, recepcion, items[m]);
      UnaFilaMas(e.recibidos, p.value.recibidos, Plegar(e, items, IngresarItem(almacen, recepcion)).value.recibidos, items, recepcion, almacen);
    }
  }

  /** A receipt puts its own row and one row a line on record. */
  lemma {:induction false} RecepcionarDeja(s: Estado, clave: string, numero: string, almacen: AlmacenId, items: seq<ItemCompra>)
    requires Recepcionar(s, clave, numero, almacen, items).Ok? && !RecepcionConClave(s.recepciones, clave)
    ensures var s' := Recepcionar(s, clave, numero, almacen, items).value;
      && s' == s.(kardex := s'.kardex, lotes := s'.lotes, recibidos := s'.recibidos, recepciones := s.recepciones + [RecepcionCompra(clave, numero)])
      && FilasDeCompra(s.recibidos, s'.recibidos, items, |s.recepciones|, almacen)
  {
    ComprasDejan(Entrada(s.kardex, s.lotes, s.recibidos), almacen, |s.recepciones|, items);
  }
}
