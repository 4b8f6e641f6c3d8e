/** When a refund commits. The ledger key of a line put back holds the refund, the warehouse and the
    variant but not the line, so of two lines that go back into one cell the unique index refuses
    the second, and the whole refund with it; scrapped and untracked lines go nowhere. */
module Reposiciones {
  import opened Comun
  import opened Kardex
  import opened Movimientos
  import opened Existencias
  import opened Inventario
  import opened Corridas
  import opened Identidades
  import opened Ventas
  import opened VentasCorridas

  /** The item names a line of the sale, of a variant that exists. */
  predicate Conocido(vs: map<VarianteId, Variante>, v: Venta, it: ItemDevolucion) {
    it.linea < |v.lineas| && v.lineas[it.linea].variante in vs
  }

  /** The item goes back into stock. */
  predicate Repone(vs: map<VarianteId, Variante>, v: Venta, it: ItemDevolucion) {
    Conocido(vs, v, it) && it.restock.GetOr(true) && vs[v.lineas[it.linea].variante].isStockTracked
  }

  function AlmacenDe(porDefecto: Option<AlmacenId>, it: ItemDevolucion): Option<AlmacenId> {
    if it.almacen.Some? then it.almacen else porDefecto
  }

  predicate VaA(vs: map<VarianteId, Variante>, v: Venta, porDefecto: Option<AlmacenId>, it: ItemDevolucion, c: Celda) {
    && Repone(vs, v, it)
    && AlmacenDe(porDefecto, it) == Some(c.almacen) && v.lineas[it.linea].variante == c.variante
  }

  /** Some item goes back into cell c. */
  predicate AlgunoVaA(vs: map<VarianteId, Variante>, v: Venta, porDefecto: Option<AlmacenId>, items: seq<ItemDevolucion>, c: Celda) {
    exists i :: 0 <= i < |items| && VaA(vs, v, porDefecto, items[i], c)
  }

  /** No two items go back into one cell. */
  ghost predicate SinCeldaRepetida(vs: map<VarianteId, Variante>, v: Venta, porDefecto: Option<AlmacenId>, items: seq<ItemDevolucion>) {
    forall i, j, c :: 0 <= i < j < |items| && VaA(vs, v, porDefecto, items[i], c) ==> !VaA(vs, v, porDefecto, items[j], c)
  }

  /** An item that goes back knows where to, and the average it is valued at is not below zero. */
  predicate Reponible(k: Kardex, vs: map<VarianteId, Variante>, v: Venta, porDefecto: Option<AlmacenId>, it: ItemDevolucion) {
    && Conocido(vs, v, it)
    && (Repone(vs, v, it) ==>
          && AlmacenDe(porDefecto, it).Some?
          && Fila(k, Celda(AlmacenDe(porDefecto, it).value, v.lineas[it.linea].variante)).costoPromedio >= 0.0
          && it.cantidad != 0.0)
  }

  function ClaveDe(devolucion: nat, c: Celda): Clave {
    Devolucion(devolucion, c.almacen, c.variante)
  }

  lemma {:induction false} ReponerUnoSii(k: Kardex, vs: map<VarianteId, Variante>, v: Venta, devolucion: nat,
                                         porDefecto: Option<AlmacenId>, it: ItemDevolucion)
    ensures ReponerLinea(vs, v, devolucion, porDefecto)(k, it).Ok? <==>
      && Reponible(k, vs, v, porDefecto, it)
      && forall c :: VaA(vs, v, porDefecto, it, c) ==> !ClaveUsada(k.ledger, ClaveDe(devolucion, c))
  {
    if Repone(vs, v, it) && AlmacenDe(porDefecto, it).Some? {
      assert VaA(vs, v, porDefecto, it, Celda(AlmacenDe(porDefecto, it).value, v.lineas[it.linea].variante));
    }
  }

  lemma {:induction false} TrasReponerUno(k: Kardex, vs: map<VarianteId, Variante>, v: Venta, devolucion: nat,
                                          porDefecto: Option<AlmacenId>, it: ItemDevolucion, c: Celda)
    requires ReponerLinea(vs, v, devolucion, porDefecto)(k, it).Ok?
    ensures var k' := ReponerLinea(vs, v, devolucion, porDefecto)(k, it).value;
      && Fila(k', c).costoPromedio == Fila(k, c).costoPromedio
      && (ClaveUsada(k'.ledger, ClaveDe(devolucion, c)) <==> ClaveUsada(k.ledger, ClaveDe(devolucion, c)) || VaA(vs, v, porDefecto, it, c))
  {
    var k' := ReponerLinea(vs, v, devolucion, porDefecto)(k, it).value;
    if k' != k {
      assert k'.ledger == k.ledger + [k'.ledger[|k.ledger|]];
      assert k'.ledger[|k.ledger|] in k'.ledger;
    }
  }

  /** After the loop the averages are as before, and the keys in use are those of the cells it
      put something back into. */
  lemma {:induction false} TrasReponer(k: Kardex, vs: map<VarianteId, Variante>, v: Venta, devolucion: nat,
                                       porDefecto: Option<AlmacenId>, items: seq<ItemDevolucion>, c: Celda)
    requires Plegar(k, items, ReponerLinea(vs, v, devolucion, porDefecto)).Ok?
    ensures var k' := Plegar(k, items, ReponerLinea(vs, v, devolucion, porDefecto)).value;
      && Fila(k', c).costoPromedio == Fila(k, c).costoPromedio
      && (ClaveUsada(k'.ledger, ClaveDe(devolucion, c)) <==>
            ClaveUsada(k.ledger, ClaveDe(devolucion, c)) || AlgunoVaA(vs, v, porDefecto, items, c))
  {
    if |items| > 0 {
      var n := |items| - 1;
      TrasReponer(k, vs, v, devolucion, porDefecto, items[..n], c);
      TrasReponerUno(Plegar(k, items[..n], ReponerLinea(vs, v, devolucion, porDefecto)).value, vs, v, devolucion, porDefecto, items[n], c);
      assert AlgunoVaA(vs, v, porDefecto, items, c) <==> AlgunoVaA(vs, v, porDefecto, items[..n], c) || VaA(vs, v, porDefecto, items[n], c) by {
        assert forall i :: 0 <= i < n ==> items[..n][i] == items[i];
      }
    }
  }

  /** No ledger row names the refund yet. */
  ghost predicate DevolucionNueva(ledger: seq<Asiento>, devolucion: nat) {
    forall c :: !ClaveUsada(ledger, ClaveDe(devolucion, c))
  }

  lemma {:induction false} CeldasPaso(vs: map<VarianteId, Variante>, v: Venta, porDefecto: Option<AlmacenId>, items: seq<ItemDevolucion>)
    requires |items| > 0
    ensures var previos, it := items[..|items| - 1], items[|items| - 1];
      SinCeldaRepetida(vs, v, porDefecto, items) <==>
        && SinCeldaRepetida(vs, v, porDefecto, previos)
        && forall c :: VaA(vs, v, porDefecto, it, c) ==> !AlgunoVaA(vs, v, porDefecto, previos, c)
  {
    var n := |items| - 1;
    assert forall i :: 0 <= i < n ==> items[..n][i] == items[i];
  }

  /** One more item: it can go back, and into a cell none went back into before. */
  lemma {:induction false} ReponerPaso(k: Kardex, vs: map<VarianteId, Variante>, v: Venta, devolucion: nat,
                                       porDefecto: Option<AlmacenId>, previos: seq<ItemDevolucion>, it: ItemDevolucion)
    requires DevolucionNueva(k.ledger, devolucion) && Plegar(k, previos, ReponerLinea(vs, v, devolucion, porDefecto)).Ok?
    ensures ReponerLinea(vs, v, devolucion, porDefecto)(Plegar(k, previos, ReponerLinea(vs, v, devolucion, porDefecto)).value, it).Ok? <==>
      && Reponible(k, vs, v, porDefecto, it)
      && forall c :: VaA(vs, v, porDefecto, it, c) ==> !AlgunoVaA(vs, v, porDefecto, previos, c)
  {
    var p := Plegar(k, previos, ReponerLinea(vs, v, devolucion, porDefecto)).value;
    forall c {
      TrasReponer(k, vs, v, devolucion, porDefecto, previos, c);
    }
    ReponerUnoSii(p, vs, v, devolucion, porDefecto, it);
  }

  /** The stock of a new refund goes back if and only if each item can and no two share a cell. */
  lemma {:induction false} ReponerSii(k: Kardex, vs: map<VarianteId, Variante>, v: Venta, devolucion: nat,
                                      porDefecto: Option<AlmacenId>, items: seq<ItemDevolucion>)
    requires DevolucionNueva(k.ledger, devolucion)
    ensures Plegar(k, items, ReponerLinea(vs, v, devolucion, porDefecto)).Ok? <==>
      && (forall i :: 0 <= i < |items| ==> Reponible(k, vs, v, porDefecto, items[i]))
      && SinCeldaRepetida(vs, v, porDefecto, items)
  {
    if |items| > 0 {
      var n := |items| - 1;
      ReponerSii(k, vs, v, devolucion, porDefecto, items[..n]);
      assert forall i :: 0 <= i < n ==> items[..n][i] == items[i];
      CeldasPaso(vs, v, porDefecto, items);
      if Plegar(k, items[..n], ReponerLinea(vs, v, devolucion, porDefecto)).Ok? {
        ReponerPaso(k, vs, v, devolucion, porDefecto, items[..n], items[n]);
      }
    }
  }

  /** Two items that go back into one cell never commit, whatever the ledger holds. */
  lemma {:induction false} ReingresoRepetido(k: Kardex, vs: map<VarianteId, Variante>, v: Venta, devolucion: nat,
                                             porDefecto: Option<AlmacenId>, items: seq<ItemDevolucion>, i: nat, j: nat, c: Celda)
    requires i < j < |items| && VaA(vs, v, porDefecto, items[i], c) && VaA(vs, v, porDefecto, items[j], c)
    ensures Plegar(k, items, ReponerLinea(vs, v, devolucion, porDefecto)).Err?
  {
    var paso := ReponerLinea(vs, v, devolucion, porDefecto);
    if Plegar(k, items[..j], paso).Err? {
      PlegarFalla(k, items, j, paso);
    } else {
      TrasReponer(k, vs, v, devolucion, porDefecto, items[..j], c);
      assert items[..j][i] == items[i];
      ReponerUnoSii(Plegar(k, items[..j], paso).value, vs, v, devolucion, porDefecto, items[j]);
      PlegarPaso(k, items, j, paso);
      PlegarFalla(k, items, j + 1, paso);
    }
  }

  // ------------------------------------------------------------------ the whole refund

  /** The item asks for no more of a line than earlier refunds left. */
  predicate Cabe(v: Venta, reembolsos: seq<Reembolso>, venta: nat, it: ItemDevolucion) {
    it.linea < |v.lineas| && it.cantidad + Devuelto(reembolsos, venta, it.linea) <= v.lineas[it.linea].cantidad
  }

  lemma {:induction false} CalcularSii(v: Venta, reembolsos: seq<Reembolso>, venta: nat, items: seq<ItemDevolucion>)
    ensures Plegar([], items, CalcularDevuelta(v, reembolsos, venta)).Ok? <==>
      forall i :: 0 <= i < |items| ==> Cabe(v, reembolsos, venta, items[i])
  {
    if |items| > 0 {
      CalcularSii(v, reembolsos, venta, items[..|items| - 1]);
    }
  }

  /** What the service asks of a new refund besides no two items going back into one cell. */
  ghost predicate DevolucionAceptable(s: EstadoVentas, p: PedidoDevolucion) {
    && DevolucionValida(p) && p.venta < |s.ventas| && s.ventas[p.venta].estado != ANULADA
    && !ReembolsoConNumero(s.reembolsos, p.number)
    && (forall i :: 0 <= i < |p.items| ==>
          && Cabe(s.ventas[p.venta], s.reembolsos, p.venta, p.items[i])
          && Reponible(s.inv.kardex, s.inv.variantes, s.ventas[p.venta], p.almacenDefault, p.items[i]))
  }

  lemma {:induction false} DevolverNueva(s: EstadoVentas, p: PedidoDevolucion)
    requires EsNueva(s, p) && DevolucionNueva(s.inv.kardex.ledger, |s.reembolsos|)
    ensures Devolver(s, p).Ok? <==>
      DevolucionAceptable(s, p) && SinCeldaRepetida(s.inv.variantes, s.ventas[p.venta], p.almacenDefault, p.items)
  {
    if p.venta < |s.ventas| {
      CalcularSii(s.ventas[p.venta], s.reembolsos, p.venta, p.items);
      ReponerSii(s.inv.kardex, s.inv.variantes, s.ventas[p.venta], |s.reembolsos|, p.almacenDefault, p.items);
    }
  }

  // ------------------------------------------------------------------ every reachable state

  lemma {:induction false} ReponerCumple(k: Kardex, vs: map<VarianteId, Variante>, v: Venta, devolucion: nat,
                                         porDefecto: Option<AlmacenId>, items: seq<ItemDevolucion>, f: Clave -> bool)
    requires CumplenClaves(k.ledger, f) && forall a, v :: f(Devolucion(devolucion, a, v))
    ensures var r := Plegar(k, items, ReponerLinea(vs, v, devolucion, porDefecto)); r.Ok? ==> CumplenClaves(r.value.ledger, f)
  {
    var P, paso := (k: Kardex) => CumplenClaves(k.ledger, f), ReponerLinea(vs, v, devolucion, porDefecto);
    forall k, it {:trigger paso(k, it)} | P(k) && paso(k, it).Ok? ensures P(paso(k, it).value) {
      if Repone(vs, v, it) {
        var c := Celda(AlmacenDe(porDefecto, it).value, v.lineas[it.linea].variante);
        assert paso(k, it) == Reingresar(k, c, it.cantidad, devolucion);
        assert f(Devolucion(devolucion, c.almacen, c.variante));
      }
    }
    PlegarConserva(k, items, paso, P);
  }

  lemma {:induction false} VentaConocida(s: EstadoVentas, p: PedidoVenta, n: nat)
    requires CumplenClaves(s.inv.kardex.ledger, DevolucionesHasta(n)) && Crear(s, p).Ok?
    ensures CumplenClaves(Crear(s, p).value.inv.kardex.ledger, DevolucionesHasta(n)) && Crear(s, p).value.reembolsos == s.reembolsos
  {
    if !VentaConClave(s.ventas, p.clave) {
      LineasCumplen(Existencias(s.inv.kardex, s.inv.lotes), s.inv.variantes, |s.ventas|,
                    LineasConStock(CalcularLineas(s, p).value), p.hoy, DevolucionesHasta(n));
    }
  }

  lemma {:induction false} DevolucionConocida(s: EstadoVentas, p: PedidoDevolucion)
    requires CumplenClaves(s.inv.kardex.ledger, DevolucionesHasta(|s.reembolsos|)) && Devolver(s, p).Ok?
    ensures CumplenClaves(Devolver(s, p).value.inv.kardex.ledger, DevolucionesHasta(|Devolver(s, p).value.reembolsos|))
  {
    if EsNueva(s, p) {
      ReponerCumple(s.inv.kardex, s.inv.variantes, s.ventas[p.venta], |s.reembolsos|, p.almacenDefault, p.items,
                    DevolucionesHasta(|s.reembolsos| + 1));
    }
  }

  /** In every reachable state the ledger names only refunds on record. */
  lemma {:induction false} DevolucionesConocidas(ps: seq<PeticionVentas>)
    ensures var s := CorrerVentas(VENTAS_INICIAL, ps); CumplenClaves(s.inv.kardex.ledger, DevolucionesHasta(|s.reembolsos|))
  {
    if |ps| > 0 {
      DevolucionesConocidas(ps[..|ps| - 1]);
      var s, p := CorrerVentas(VENTAS_INICIAL, ps[..|ps| - 1]), ps[|ps| - 1];
      if AtenderVentas(s, p).Ok? {
        match p
        case VStock(q) => PasoCumple(s.inv, q, DevolucionesHasta(|s.reembolsos|));
        case VVenta(q) => VentaConocida(s, q, |s.reembolsos|);
        case VDevolver(q) => DevolucionConocida(s, q);
        case _ =>
      }
    }
  }

  /** In every reachable state a refund with a new key commits if and only if it is acceptable and
      no two of its items go back into one cell. */
  lemma {:induction false} DevolverSii(ps: seq<PeticionVentas>, p: PedidoDevolucion)
    ensures var s := CorrerVentas(VENTAS_INICIAL, ps);
      EsNueva(s, p) ==>
        (Devolver(s, p).Ok? <==>
          DevolucionAceptable(s, p) && SinCeldaRepetida(s.inv.variantes, s.ventas[p.venta], p.almacenDefault, p.items))
  {
    var s := CorrerVentas(VENTAS_INICIAL, ps);
    DevolucionesConocidas(ps);
    assert DevolucionNueva(s.inv.kardex.ledger, |s.reembolsos|);
    if EsNueva(s, p) {
      DevolverNueva(s, p);
    }
  }
}
