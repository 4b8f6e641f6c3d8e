/** Receipts that name a variant twice. The ledger key of a receipt line holds the receipt, the
    warehouse and the variant but not the line, so the unique index refuses the second line and
    the whole receipt with it. */
module Repeticiones {
  import opened Comun
  import opened Kardex
  import opened Movimientos
  import opened Lotes
  import opened Existencias
  import opened Inventario
  import opened Invariante
  import opened Corridas
  import opened Identidades

  predicate Nombrada(items: seq<ItemCompra>, v: VarianteId) {
    |items| > 0 && (items[|items| - 1].variante == v || Nombrada(items[..|items| - 1], v))
  }

  predicate SinVarianteRepetida(items: seq<ItemCompra>) {
    |items| > 0 ==>
      SinVarianteRepetida(items[..|items| - 1]) && !Nombrada(items[..|items| - 1], items[|items| - 1].variante)
  }

  lemma {:induction false} NombradaEn(items: seq<ItemCompra>, v: VarianteId)
    ensures Nombrada(items, v) <==> exists i :: 0 <= i < |items| && items[i].variante == v
  {
    if |items| > 0 {
      var n, previos := |items| - 1, items[..|items| - 1];
      NombradaEn(previos, v);
      if Nombrada(previos, v) {
        var i :| 0 <= i < |previos| && previos[i].variante == v;
        assert items[i].variante == v;
      }
      assert forall i :: 0 <= i < n ==> items[i] == previos[i];
    }
  }

  /** The check made line by line is that no two lines name one variant. */
  lemma {:induction false} SinRepetirExacto(items: seq<ItemCompra>)
    ensures SinVarianteRepetida(items) <==> forall i, j :: 0 <= i < j < |items| ==> items[i].variante != items[j].variante
  {
    if |items| > 0 {
      var n := |items| - 1;
      SinRepetirExacto(items[..n]);
      NombradaEn(items[..n], items[n].variante);
      assert forall i :: 0 <= i < n ==> items[..n][i] == items[i];
    }
  }

  lemma {:induction false} EntraSiClaveNueva(e: Entrada, almacen: AlmacenId, recepcion: nat, item: ItemCompra)
    requires item.cantidad > 0.0 && item.costoUnitario >= 0.0
    ensures IngresarItem(almacen, recepcion)(e, item).Ok?
       <==> !ClaveUsada(e.kardex.ledger, Recepcion(recepcion, almacen, item.variante))
  {
  }

  lemma {:induction false} ClavesTrasIngresar(e: Entrada, almacen: AlmacenId, recepcion: nat, item: ItemCompra, v: VarianteId)
    requires IngresarItem(almacen, recepcion)(e, item).Ok?
    ensures ClaveUsada(IngresarItem(almacen, recepcion)(e, item).value.kardex.ledger, Recepcion(recepcion, almacen, v))
       <==> ClaveUsada(e.kardex.ledger, Recepcion(recepcion, almacen, v)) || item.variante == v
  {
    var l, l' := e.kardex.ledger, IngresarItem(almacen, recepcion)(e, item).value.kardex.ledger;
    assert l' == l + [l'[|l|]] && l'[|l|].clave == Recepcion(recepcion, almacen, item.variante);
    assert l'[|l|] in l';
  }

  /** The keys of a receipt that are in use after its first lines are those of the lines. */
  lemma {:induction false} ClavesDeRecepcion(e: Entrada, almacen: AlmacenId, recepcion: nat, items: seq<ItemCompra>, v: VarianteId)
    requires Plegar(e, items, IngresarItem(almacen, recepcion)).Ok?
    ensures ClaveUsada(Plegar(e, items, IngresarItem(almacen, recepcion)).value.kardex.ledger, Recepcion(recepcion, almacen, v))
       <==> ClaveUsada(e.kardex.ledger, Recepcion(recepcion, almacen, v)) || Nombrada(items, v)
  {
    var n := |items| - 1;
    if n >= 0 {
      ClavesDeRecepcion(e, almacen, recepcion, items[..n], v);
      ClavesTrasIngresar(Plegar(e, items[..n], IngresarItem(almacen, recepcion)).value, almacen, recepcion, items[n], v);
    }
  }

  ghost predicate LineasValidas(items: seq<ItemCompra>) {
    forall i :: 0 <= i < |items| ==> items[i].cantidad > 0.0 && items[i].costoUnitario >= 0.0
  }

  /** No ledger row names the receipt yet. */
  ghost predicate IdNuevo(ledger: seq<Asiento>, recepcion: nat, almacen: AlmacenId) {
    forall v :: !ClaveUsada(ledger, Recepcion(recepcion, almacen, v))
  }

  /** A receipt whose lines are valid and whose id is new enters the stock if and only if it
      names no variant twice. */
  lemma {:induction false} RecepcionSinRepetir(e: Entrada, almacen: AlmacenId, recepcion: nat, items: seq<ItemCompra>)
    requires LineasValidas(items) && IdNuevo(e.kardex.ledger, recepcion, almacen)
    ensures Plegar(e, items, IngresarItem(almacen, recepcion)).Ok? <==> SinVarianteRepetida(items)
  {
    var n := |items| - 1;
    if n >= 0 {
      RecepcionSinRepetir(e, almacen, recepcion, items[..n]);
      match Plegar(e, items[..n], IngresarItem(almacen, recepcion))
      case Ok(p) =>
        ClavesDeRecepcion(e, almacen, recepcion, items[..n], items[n].variante);
        EntraSiClaveNueva(p, almacen, recepcion, items[n]);
      case Err(_) =>
    }
  }

  lemma {:induction false} CostoNegativoNoEntra(e: Entrada, almacen: AlmacenId, recepcion: nat, items: seq<ItemCompra>, i: nat)
    requires i < |items| && items[i].costoUnitario < 0.0
    ensures Plegar(e, items, IngresarItem(almacen, recepcion)).Err?
  {
    if Plegar(e, items[..i], IngresarItem(almacen, recepcion)).Err? {
      PlegarFalla(e, items, i, IngresarItem(almacen, recepcion));
    } else {
      PlegarPaso(e, items, i, IngresarItem(almacen, recepcion));
      PlegarFalla(e, items, i + 1, IngresarItem(almacen, recepcion));
    }
  }

  /** What the service asks of a receipt besides naming no variant twice, costs included: the
      ledger takes none below zero. */
  ghost predicate RecepcionAceptable(s: Estado, numero: string, almacen: AlmacenId, items: seq<ItemCompra>) {
    && |items| > 0 && LineasValidas(items)
    && !ConServicios(s.variantes, items) && !ConDesconocidas(s.variantes, items)
    && !RecepcionConNumero(s.recepciones, numero) && almacen in s.almacenes
  }

  /** Seen from the service: a receipt with a new key and a new id commits if and only if it is
      acceptable and names no variant twice. */
  lemma {:induction false} RecepcionarNueva(s: Estado, clave: string, numero: string, almacen: AlmacenId, items: seq<ItemCompra>)
    requires !RecepcionConClave(s.recepciones, clave) && IdNuevo(s.kardex.ledger, |s.recepciones|, almacen)
    ensures Recepcionar(s, clave, numero, almacen, items).Ok?
       <==> RecepcionAceptable(s, numero, almacen, items) && SinVarianteRepetida(items)
  {
    var e := Entrada(s.kardex, s.lotes, s.recibidos);
    if LineasValidas(items) {
      RecepcionSinRepetir(e, almacen, |s.recepciones|, items);
    } else if exists i :: 0 <= i < |items| && items[i].costoUnitario < 0.0 {
      var i :| 0 <= i < |items| && items[i].costoUnitario < 0.0;
      CostoNegativoNoEntra(e, almacen, |s.recepciones|, items, i);
    }
  }

  /** In every reachable state ids are new, so that is the whole condition. */
  lemma {:induction false} RecepcionarSii(ps: seq<Peticion>, clave: string, numero: string, almacen: AlmacenId, items: seq<ItemCompra>)
    ensures var s := Correr(INICIAL, ps);
      !RecepcionConClave(s.recepciones, clave) ==>
        (Recepcionar(s, clave, numero, almacen, items).Ok? <==>
          RecepcionAceptable(s, numero, almacen, items) && SinVarianteRepetida(items))
  {
    var s := Correr(INICIAL, ps);
    RecepcionesConocidas(ps);
    assert IdNuevo(s.kardex.ledger, |s.recepciones|, almacen);
    if !RecepcionConClave(s.recepciones, clave) {
      RecepcionarNueva(s, clave, numero, almacen, items);
    }
  }
}
