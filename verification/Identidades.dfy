/** Which receipts and refunds the ledger keys name: only those on record. The id of the next one
    is therefore new to the ledger, in every reachable state. */
module Identidades {
  import opened Comun
  import opened Kardex
  import opened Movimientos
  import opened Lotes
  import opened Existencias
  import opened Inventario
  import opened Invariante
  import opened Corridas

  ghost predicate CumplenClaves(ledger: seq<Asiento>, f: Clave -> bool) {
    forall i :: 0 <= i < |ledger| ==> f(ledger[i].clave)
  }

  /** The filter only looks at keys of receipts and refunds. */
  ghost predicate SoloDocumentos(f: Clave -> bool) {
    forall c: Clave :: !c.Recepcion? && !c.Devolucion? ==> f(c)
  }

  function RecepcionesHasta(n: nat): Clave -> bool {
    (c: Clave) => c.Recepcion? ==> c.recepcion < n
  }

  function DevolucionesHasta(n: nat): Clave -> bool {
    (c: Clave) => c.Devolucion? ==> c.devolucion < n
  }

  lemma {:induction false} AsentarCumple(ledger: seq<Asiento>, filas: seq<Asiento>, f: Clave -> bool)
    requires CumplenClaves(ledger, f) && forall i :: 0 <= i < |filas| ==> f(filas[i].clave)
    ensures Plegar(ledger, filas, AsentarUno()).Ok? ==> CumplenClaves(Plegar(ledger, filas, AsentarUno()).value, f)
  {
    PlegarConserva(ledger, filas, AsentarUno(), (l: seq<Asiento>) => CumplenClaves(l, f));
  }

  lemma {:induction false} LineaCumple(e: Existencias, l: LineaStock, permite: bool, venta: nat, hoy: nat, f: Clave -> bool)
    requires CumplenClaves(e.kardex.ledger, f) && SoloDocumentos(f) && RegistrarLinea(e, l, permite, venta, hoy).Ok?
    ensures CumplenClaves(RegistrarLinea(e, l, permite, venta, hoy).value.kardex.ledger, f)
  {
    var costo := Fila(e.kardex, l.celda).costoPromedio;
    var consumos := ConsumoDeLinea(e, l, permite, hoy).value;
    LineaDeVenta(l, venta, costo, consumos);
    AsentarCumple(e.kardex.ledger, AsientosVenta(l, venta, costo, consumos), f);
  }

  /** The entries of a sale line name the sale. */
  lemma {:induction false} LineaDeVenta(l: LineaStock, venta: nat, costo: real, consumos: seq<Consumo>)
    ensures forall i :: 0 <= i < |AsientosDeLotes(l, venta, costo, consumos)| ==>
      AsientosDeLotes(l, venta, costo, consumos)[i].clave.VentaLinea?
    ensures forall i :: 0 <= i < |AsientosVenta(l, venta, costo, consumos)| ==>
      AsientosVenta(l, venta, costo, consumos)[i].clave.VentaLinea?
  {
    if |consumos| > 0 {
      LineaDeVenta(l, venta, costo, consumos[..|consumos| - 1]);
    }
  }

  lemma {:induction false} LineasCumplen(e: Existencias, vs: map<VarianteId, Variante>, venta: nat, lineas: seq<LineaStock>, hoy: nat, f: Clave -> bool)
    requires CumplenClaves(e.kardex.ledger, f) && SoloDocumentos(f)
    ensures var r := Plegar(e, lineas, VenderLinea(vs, venta, hoy)); r.Ok? ==> CumplenClaves(r.value.kardex.ledger, f)
  {
    var P := (e: Existencias) => CumplenClaves(e.kardex.ledger, f);
    var paso := VenderLinea(vs, venta, hoy);
    forall e, l {:trigger paso(e, l)} | P(e) && paso(e, l).Ok? ensures P(paso(e, l).value) {
      if vs[l.celda.variante].isStockTracked {
        LineaCumple(e, l, vs[l.celda.variante].allowNegativeStock, venta, hoy, f);
      }
    }
    PlegarConserva(e, lineas, paso, P);
  }

  lemma {:induction false} ConteoCumple(k: Kardex, almacen: AlmacenId, conteo: nat, items: seq<ItemConteo>, f: Clave -> bool)
    requires CumplenClaves(k.ledger, f) && SoloDocumentos(f)
    ensures var r := Plegar(Contado(k, []), items, ContarItem(almacen, conteo)); r.Ok? ==> CumplenClaves(r.value.kardex.ledger, f)
  {
    PlegarConserva(Contado(k, []), items, ContarItem(almacen, conteo), (a: Contado) => CumplenClaves(a.kardex.ledger, f));
  }

  lemma {:induction false} DespachosCumplen(k: Kardex, vs: map<VarianteId, Variante>, o: AlmacenId, d: AlmacenId, t: nat, clave: string,
                                            ps: seq<Pedido>, f: Clave -> bool)
    requires CumplenClaves(k.ledger, f) && SoloDocumentos(f)
    ensures var r := Plegar(k, ps, DespachoDe(vs, o, d, t, clave)); r.Ok? ==> CumplenClaves(r.value.ledger, f)
  {
    PlegarConserva(k, ps, DespachoDe(vs, o, d, t, clave), (k: Kardex) => CumplenClaves(k.ledger, f));
  }

  lemma {:induction false} RecibidosCumplen(k: Kardex, ledger: seq<Asiento>, ps: seq<Pedido>, d: AlmacenId, t: nat, clave: string,
                                            items: seq<Articulo>, f: Clave -> bool)
    requires CumplenClaves(k.ledger, f) && SoloDocumentos(f)
    ensures var r := Plegar(Recibido(k, []), items, RecibirItem(ledger, ps, d, t, clave)); r.Ok? ==> CumplenClaves(r.value.kardex.ledger, f)
  {
    PlegarConserva(Recibido(k, []), items, RecibirItem(ledger, ps, d, t, clave), (a: Recibido) => CumplenClaves(a.kardex.ledger, f));
  }

  lemma {:induction false} CanceladosCumplen(k: Kardex, ledger: seq<Asiento>, o: AlmacenId, d: AlmacenId, t: nat, items: seq<Articulo>, f: Clave -> bool)
    requires CumplenClaves(k.ledger, f) && SoloDocumentos(f)
    ensures var r := Plegar(k, items, CancelarItem(ledger, o, d, t)); r.Ok? ==> CumplenClaves(r.value.ledger, f)
  {
    PlegarConserva(k, items, CancelarItem(ledger, o, d, t), (k: Kardex) => CumplenClaves(k.ledger, f));
  }

  lemma {:induction false} IngresosCumplen(e: Entrada, a: AlmacenId, recepcion: nat, items: seq<ItemCompra>, f: Clave -> bool)
    requires CumplenClaves(e.kardex.ledger, f) && forall v :: f(Recepcion(recepcion, a, v))
    ensures var r := Plegar(e, items, IngresarItem(a, recepcion)); r.Ok? ==> CumplenClaves(r.value.kardex.ledger, f)
  {
    PlegarConserva(e, items, IngresarItem(a, recepcion), (e: Entrada) => CumplenClaves(e.kardex.ledger, f));
  }

  lemma {:induction false} ReingresosCumplen(k: Kardex, vs: map<VarianteId, Variante>, d: nat, items: seq<Reingreso>, f: Clave -> bool)
    requires CumplenClaves(k.ledger, f) && forall a, v :: f(Devolucion(d, a, v))
    ensures var r := Plegar(k, items, ReingresarUno(vs, d)); r.Ok? ==> CumplenClaves(r.value.ledger, f)
  {
    PlegarConserva(k, items, ReingresarUno(vs, d), (k: Kardex) => CumplenClaves(k.ledger, f));
  }

  /** The keys a request may add pass the filter if those of its own document do. */
  ghost predicate PasaElFiltro(s: Estado, p: Peticion, f: Clave -> bool) {
    match p
    case PRecepcion(_, _, a, _) => forall v :: f(Recepcion(|s.recepciones|, a, v))
    case PDevolucion(d, _) => forall a, v :: f(Devolucion(d, a, v))
    case _ => true
  }

  lemma {:induction false} TransferenciaCumple(s: Estado, p: Peticion, f: Clave -> bool)
    requires CumplenClaves(s.kardex.ledger, f) && SoloDocumentos(f) && Atender(s, p).Ok? && EsTransferencia(p)
    ensures CumplenClaves(Atender(s, p).value.kardex.ledger, f)
  {
    match p
    case PTransferir(o, d, pedidos, clave) =>
      DespachosCumplen(s.kardex, s.variantes, o, d, |s.transferencias|, clave, Consolidar(pedidos), f);
    case PRecibir(id, pedidos, clave) =>
      RecibidosCumplen(s.kardex, s.kardex.ledger, Consolidar(SoloPositivos(pedidos)), s.transferencias[id].destino, id, clave,
                       s.transferencias[id].articulos, f);
    case PCancelar(id) =>
      var t := s.transferencias[id];
      CanceladosCumplen(s.kardex, s.kardex.ledger, t.origen, t.destino, id, t.articulos, f);
  }

  lemma {:induction false} VentaCumple(s: Estado, p: Peticion, f: Clave -> bool)
    requires CumplenClaves(s.kardex.ledger, f) && SoloDocumentos(f) && Atender(s, p).Ok? && (p.PVenta? || p.PContabilizar?)
    ensures CumplenClaves(Atender(s, p).value.kardex.ledger, f)
  {
    match p
    case PVenta(venta, lineas, hoy) => LineasCumplen(Existencias(s.kardex, s.lotes), s.variantes, venta, lineas, hoy, f);
    case PContabilizar(id) => ConteoCumple(s.kardex, s.conteos[id].almacen, id, s.conteos[id].articulos, f);
  }

  lemma {:induction false} DocumentoCumple(s: Estado, p: Peticion, f: Clave -> bool)
    requires CumplenClaves(s.kardex.ledger, f) && PasaElFiltro(s, p, f) && Atender(s, p).Ok? && (p.PRecepcion? || p.PDevolucion?)
    ensures CumplenClaves(Atender(s, p).value.kardex.ledger, f)
  {
    match p
    case PRecepcion(_, _, a, items) => IngresosCumplen(Entrada(s.kardex, s.lotes, s.recibidos), a, |s.recepciones|, items, f);
    case PDevolucion(d, items) => ReingresosCumplen(s.kardex, s.variantes, d, items, f);
  }

  lemma {:induction false} PasoCumple(s: Estado, p: Peticion, f: Clave -> bool)
    requires CumplenClaves(s.kardex.ledger, f) && SoloDocumentos(f) && PasaElFiltro(s, p, f)
    ensures CumplenClaves(Paso(s, p).kardex.ledger, f)
  {
    if Atender(s, p).Ok? {
      if EsTransferencia(p) {
        TransferenciaCumple(s, p, f);
      } else if p.PVenta? || p.PContabilizar? {
        VentaCumple(s, p, f);
      } else if p.PRecepcion? || p.PDevolucion? {
        DocumentoCumple(s, p, f);
      }
    }
  }

  /** Only a receipt adds a receipt. */
  lemma {:induction false} PasoRecepciones(s: Estado, p: Peticion)
    ensures |s.recepciones| <= |Paso(s, p).recepciones|
    ensures !p.PRecepcion? ==> Paso(s, p).recepciones == s.recepciones
    ensures p.PRecepcion? && Paso(s, p) != s ==> |Paso(s, p).recepciones| == |s.recepciones| + 1
  {
  }

  /** In every reachable state the ledger names only receipts on record. */
  lemma {:induction false} RecepcionesConocidas(ps: seq<Peticion>)
    ensures CumplenClaves(Correr(INICIAL, ps).kardex.ledger, RecepcionesHasta(|Correr(INICIAL, ps).recepciones|))
  {
    if |ps| > 0 {
      RecepcionesConocidas(ps[..|ps| - 1]);
      PasoConocidas(Correr(INICIAL, ps[..|ps| - 1]), ps[|ps| - 1]);
    }
  }

  lemma {:induction false} PasoConocidas(s: Estado, p: Peticion)
    requires CumplenClaves(s.kardex.ledger, RecepcionesHasta(|s.recepciones|))
    ensures CumplenClaves(Paso(s, p).kardex.ledger, RecepcionesHasta(|Paso(s, p).recepciones|))
  {
    PasoRecepciones(s, p);
    if Paso(s, p) != s {
      PasoCumple(s, p, RecepcionesHasta(|Paso(s, p).recepciones|));
    }
  }
}
