/** The sales service as it runs: the stock and lots of each line, the sale and its promotions,
    and the refund. */
module ServicioVentas {
  import opened Comun
  import opened Sumas
  import opened Dinero
  import opened Kardex
  import opened Movimientos
  import opened Lotes
  import opened Existencias
  import ModeloExistencias = Existencias
  import opened Inventario
  import opened Invariante
  import opened Promociones
  import opened Ventas
  import opened VentasInvariante
  import opened Tablas

  /** Once nothing is missing, visiting more lots takes nothing more. */
  lemma {:induction false} NadaMas(lotes: seq<Lote>, orden: seq<nat>, cantidad: real, hoy: nat, n: nat, m: nat)
    requires Validos(lotes, orden) && n <= m <= |orden| && Restante(lotes, orden, cantidad, hoy, n) <= 0.0
    ensures Restante(lotes, orden, cantidad, hoy, m) == Restante(lotes, orden, cantidad, hoy, n)
    ensures Consumos(lotes, orden, cantidad, hoy, m) == Consumos(lotes, orden, cantidad, hoy, n)
    decreases m
  {
    if n < m {
      NadaMas(lotes, orden, cantidad, hoy, n, m - 1);
    }
  }

  lemma {:induction false} AsientosPrefijo(l: LineaStock, venta: nat, costo: real, consumos: seq<Consumo>, n: nat)
    requires n <= |consumos|
    ensures |AsientosDeLotes(l, venta, costo, consumos)| == |consumos|
    ensures AsientosDeLotes(l, venta, costo, consumos[..n]) == AsientosDeLotes(l, venta, costo, consumos)[..n]
  {
    AsientosDeLotesForma(l, venta, costo, consumos);
    if n == |consumos| {
      assert consumos[..n] == consumos;
    } else {
      var previos := consumos[..|consumos| - 1];
      AsientosPrefijo(l, venta, costo, previos, n);
      assert previos[..n] == consumos[..n];
    }
  }

  class VentasService {
    const db: Tablas

    constructor (db: Tablas)
      ensures this.db == db
    {
      this.db := db;
    }

    // ---------------------------------------------------------------- lots and ledger of a line

    /** consumirLotesFEFO: visit the lots in the order of the query, skip the expired, stop when done. */
    method ConsumirLotesFEFO(c: Celda, cantidad: real, permitirNegativo: bool, hoy: nat) returns (r: Resultado<seq<Consumo>>)
      modifies db`lotes
      ensures r == Lotes.ConsumirLotesFEFO(old(db.lotes), c, cantidad, permitirNegativo, hoy)
      ensures r.Ok? ==> db.lotes == Descontar(old(db.lotes), r.value)
    {
      var lotes := db.lotes;
      var orden := Consulta(lotes, c, |lotes|);
      if |orden| == 0 {
        return Ok([]);
      }
      var consumos: seq<Consumo> := [];
      var restante := cantidad;
      var i := 0;
      while i < |orden| && restante > 0.0
        invariant i <= |orden|
        invariant restante == Restante(lotes, orden, cantidad, hoy, i)
        invariant consumos == Consumos(lotes, orden, cantidad, hoy, i)
        invariant db.lotes == Descontar(lotes, consumos) && |db.lotes| == |lotes|
      {
        var lote := lotes[orden[i]];
        if !Vencido(lote, hoy) {
          var usar := if lote.cantidad < restante then lote.cantidad else restante;
          var consumo := Consumo(orden[i], usar);
          assert (consumos + [consumo])[..|consumos|] == consumos;
          db.lotes := db.lotes[orden[i] := db.lotes[orden[i]].(cantidad := db.lotes[orden[i]].cantidad - usar)];
          consumos := consumos + [consumo];
          restante := restante - usar;
        }
        i := i + 1;
      }
      if restante <= 0.0 {
        NadaMas(lotes, orden, cantidad, hoy, i, |orden|);
      }
      if restante > 0.0 && !permitirNegativo {
        return Err(Conflicto);
      }
      r := Ok(consumos);
    }

    /** asentar: one entry of the line. */
    method AsentarLinea(l: LineaStock, venta: nat, costo: real, cantidad: real, lote: Option<nat>, sufijo: Sufijo) returns (r: Resultado<()>)
      modifies db`ledger
      ensures match AsentarUno()(old(db.ledger), AsientoVenta(l, venta, costo, cantidad, lote, sufijo))
        case Ok(x) => r == Ok(()) && db.ledger == x
        case Err(e) => r == Err(e)
    {
      r := db.InsertarAsiento(Asiento(l.celda, lote, VENTA, -cantidad, costo, -Valor(cantidad, costo), None,
                                      VentaLinea(venta, l.celda.almacen, l.celda.variante, l.numero, sufijo)));
    }

    method AsentarLotes(l: LineaStock, venta: nat, costo: real, lotes: seq<Consumo>) returns (r: Resultado<()>, cubierto: real)
      modifies db`ledger
      ensures match Plegar(old(db.ledger), AsientosDeLotes(l, venta, costo, lotes), AsentarUno())
        case Ok(x) => r == Ok(()) && db.ledger == x && cubierto == Suma(lotes, Consumida())
        case Err(e) => r == Err(e)
    {
      ghost var inicio, filas := db.ledger, AsientosDeLotes(l, venta, costo, lotes);
      r, cubierto := Ok(()), 0.0;
      AsientosPrefijo(l, venta, costo, lotes, 0);
      for i := 0 to |lotes|
        invariant r == Ok(()) && cubierto == Suma(lotes[..i], Consumida())
        invariant Plegar(inicio, filas[..i], AsentarUno()) == Ok(db.ledger)
      {
        PlegarPaso(inicio, filas, i, AsentarUno());
        AsientosPrefijo(l, venta, costo, lotes, i + 1);
        AsientosPrefijo(l, venta, costo, lotes, i);
        assert lotes[..i + 1][..i] == lotes[..i];
        assert filas[i] == filas[..i + 1][i];
        r := AsentarLinea(l, venta, costo, lotes[i].cantidad, Some(lotes[i].lote), PorLote(lotes[i].lote));
        if r.Err? {
          PlegarFalla(inicio, filas, i + 1, AsentarUno());
          return;
        }
        cubierto := cubierto + lotes[i].cantidad;
      }
      assert filas[..|lotes|] == filas && lotes[..|lotes|] == lotes;
    }

    /** registrarAsientoVenta: one entry, or one for each lot and one for what no lot covered. */
    method RegistrarAsientoVenta(l: LineaStock, venta: nat, costo: real, lotes: seq<Consumo>) returns (r: Resultado<()>)
      modifies db`ledger
      ensures match Plegar(old(db.ledger), AsientosVenta(l, venta, costo, lotes), AsentarUno())
        case Ok(x) => r == Ok(()) && db.ledger == x
        case Err(e) => r == Err(e)
    {
      ghost var inicio, filas := db.ledger, AsientosVenta(l, venta, costo, lotes);
      if |lotes| == 0 {
        assert filas[..0] == [];
        PlegarPaso(inicio, filas, 0, AsentarUno());
        assert filas[..1] == filas;
        r := AsentarLinea(l, venta, costo, l.cantidad, None, Linea);
        return;
      }
      ghost var porLote := AsientosDeLotes(l, venta, costo, lotes);
      AsientosPrefijo(l, venta, costo, lotes, 0);
      assert filas[..|lotes|] == porLote;
      var cubierto;
      r, cubierto := AsentarLotes(l, venta, costo, lotes);
      if r.Err? {
        PlegarFalla(inicio, filas, |lotes|, AsentarUno());
        return;
      }
      var resto := l.cantidad - cubierto;
      if resto > 0.0 {
        PlegarPaso(inicio, filas, |lotes|, AsentarUno());
        assert filas[..|lotes| + 1] == filas;
        r := AsentarLinea(l, venta, costo, resto, None, Resto);
      } else {
        assert filas == porLote;
      }
    }

    /** The stock part of registrarLinea, for a tracked variant. */
    method RegistrarLinea(venta: nat, l: LineaStock, permiteNegativo: bool, hoy: nat) returns (r: Resultado<()>)
      modifies db`saldos, db`ledger, db`lotes
      ensures match ModeloExistencias.RegistrarLinea(Existencias(old(db.Stock()), old(db.lotes)), l, permiteNegativo, venta, hoy)
        case Ok(e) => r == Ok(()) && Existencias(db.Stock(), db.lotes) == e
        case Err(e) => r == Err(e)
    {
      if l.celda !in db.saldos {
        if !permiteNegativo {
          return Err(Conflicto);
        }
        db.saldos := db.saldos[l.celda := VACIO.(enStock := -l.cantidad, available := -l.cantidad)];
        r := RegistrarAsientoVenta(l, venta, 0.0, []);
        return;
      }
      var balance := db.saldos[l.celda];
      if balance.available < l.cantidad && !permiteNegativo {
        return Err(Conflicto);
      }
      db.saldos := db.saldos[l.celda := balance.(enStock := balance.enStock - l.cantidad, available := balance.available - l.cantidad)];
      var lotes := ConsumirLotesFEFO(l.celda, l.cantidad, permiteNegativo, hoy);
      if lotes.Err? {
        return Err(lotes.error);
      }
      r := RegistrarAsientoVenta(l, venta, balance.costoPromedio, lotes.value);
    }

    // ---------------------------------------------------------------- a sale

    /** One line: its discounts, its taxes and its total. */
    method CalcularUna(l: LineaPedida, precio: real, almacen: Option<AlmacenId>, promos: seq<Promocion>, totalVenta: real)
      returns (c: LineaCalculada)
      ensures c == CalcularLinea(l, precio, almacen, promos, totalVenta)
    {
      var montoBruto := Valor(l.cantidad, precio);
      var promo := Descuentos(0.0, []);
      if |promos| > 0 {
        promo := DescuentosDeLinea(promos, LineaPromo(l.productoId, l.cantidad, precio, montoBruto), totalVenta);
      }
      var baseNeta := montoBruto - promo.total;
      var principal := Principal(l.tributos);
      var incluido := principal.Some? && principal.value.includedInPrice;
      var montoImpuesto := Impuesto(baseNeta, principal);
      var otros := Suma(l.tributos, FijoPor(l.cantidad));
      var totalPrecio := if incluido then baseNeta else baseNeta + montoImpuesto;
      var valorNeto := if incluido then baseNeta - montoImpuesto else baseNeta;
      c := LineaCalculada(
        l.variante, almacen, l.cantidad, precio, montoBruto, promo.total, promo.detalles, montoImpuesto, otros, incluido,
        if principal.Some? then principal.value.affectation else INAFECTO,
        if l.cantidad > 0.0 then valorNeto / l.cantidad else 0.0, totalPrecio + otros);
    }

    method SumarBrutos(lineas: seq<LineaPedida>) returns (r: Resultado<real>)
      ensures r == Plegar(0.0, lineas, SumarBruto(db.variantes))
    {
      r := Ok(0.0);
      for i := 0 to |lineas|
        invariant r.Ok? && r == Plegar(0.0, lineas[..i], SumarBruto(db.variantes))
      {
        PlegarPaso(0.0, lineas, i, SumarBruto(db.variantes));
        var l := lineas[i];
        if !VarianteActiva(db.variantes, l.variante) {
          r := Err(NoEncontrado);
        } else if l.precio.None? {
          r := Err(Conflicto);
        } else {
          r := Ok(r.value + Valor(l.cantidad, l.precio.value));
        }
        if r.Err? {
          PlegarFalla(0.0, lineas, i + 1, SumarBruto(db.variantes));
          return;
        }
      }
      assert lineas[..|lineas|] == lineas;
    }

    method CalcularSiguiente(previas: seq<LineaCalculada>, l: LineaPedida, promos: seq<Promocion>, totalVenta: real,
                             almacenDefault: Option<AlmacenId>) returns (r: Resultado<seq<LineaCalculada>>)
      ensures r == Calcular(db.variantes, promos, totalVenta, almacenDefault)(previas, l)
    {
      if l.precio.None? || l.variante !in db.variantes {
        return Err(Conflicto);
      }
      var almacen: Option<AlmacenId> := None;
      if db.variantes[l.variante].isStockTracked {
        almacen := if l.almacen.Some? then l.almacen else almacenDefault;
        if almacen.None? {
          return Err(Conflicto);
        }
      }
      var c := CalcularUna(l, l.precio.value, almacen, promos, totalVenta);
      r := Ok(previas + [c]);
    }

    /** calcularLineas: the gross of the whole sale first, then each line. */
    method CalcularLineas(p: PedidoVenta) returns (r: Resultado<seq<LineaCalculada>>)
      ensures r == Ventas.CalcularLineas(db.FotoVentas(), p)
    {
      var promos := CargarVigentes(db.promociones, p.promocionIds, p.activas);
      var totalVenta := SumarBrutos(p.lineas);
      if totalVenta.Err? {
        return Err(totalVenta.error);
      }
      ghost var paso := Calcular(db.variantes, promos, totalVenta.value, p.almacenDefault);
      r := Ok([]);
      for i := 0 to |p.lineas|
        invariant r.Ok? && r == Plegar([], p.lineas[..i], paso)
      {
        PlegarPaso([], p.lineas, i, paso);
        r := CalcularSiguiente(r.value, p.lineas[i], promos, totalVenta.value, p.almacenDefault);
        if r.Err? {
          PlegarFalla([], p.lineas, i + 1, paso);
          return;
        }
      }
      assert p.lineas[..|p.lineas|] == p.lineas;
    }

    method VenderUna(venta: nat, l: LineaStock, hoy: nat) returns (r: Resultado<()>)
      modifies db`saldos, db`ledger, db`lotes
      ensures match VenderLinea(db.variantes, venta, hoy)(Existencias(old(db.Stock()), old(db.lotes)), l)
        case Ok(e) => r == Ok(()) && Existencias(db.Stock(), db.lotes) == e
        case Err(e) => r == Err(e)
    {
      if l.celda.variante !in db.variantes {
        return Err(NoEncontrado);
      }
      if !db.variantes[l.celda.variante].isStockTracked {
        return Ok(());
      }
      r := RegistrarLinea(venta, l, db.variantes[l.celda.variante].allowNegativeStock, hoy);
    }

    /** The stock of every line that has any. */
    method VenderLineas(venta: nat, lineas: seq<LineaCalculada>, hoy: nat) returns (r: Resultado<()>)
      modifies db`saldos, db`ledger, db`lotes
      ensures match Plegar(Existencias(old(db.Stock()), old(db.lotes)), LineasConStock(lineas), VenderLinea(db.variantes, venta, hoy))
        case Ok(e) => r == Ok(()) && Existencias(db.Stock(), db.lotes) == e
        case Err(e) => r == Err(e)
    {
      ghost var inicio, todas := Existencias(db.Stock(), db.lotes), LineasConStock(lineas);
      r := Ok(());
      PrefijoConStock(lineas, 0);
      for i := 0 to |lineas|
        invariant r == Ok(())
        invariant |LineasConStock(lineas[..i])| <= |todas| && LineasConStock(lineas[..i]) == todas[..|LineasConStock(lineas[..i])|]
        invariant Plegar(inicio, LineasConStock(lineas[..i]), VenderLinea(db.variantes, venta, hoy)) == Ok(Existencias(db.Stock(), db.lotes))
      {
        PrefijoConStock(lineas, i + 1);
        assert lineas[..i + 1][..i] == lineas[..i];
        ghost var n := |LineasConStock(lineas[..i])|;
        if lineas[i].almacen.Some? {
          var l := LineaStock(Celda(lineas[i].almacen.value, lineas[i].variante), lineas[i].cantidad, i + 1);
          assert LineasConStock(lineas[..i + 1]) == LineasConStock(lineas[..i]) + [l];
          assert todas[n] == l;
          PlegarPaso(inicio, todas, n, VenderLinea(db.variantes, venta, hoy));
          r := VenderUna(venta, l, hoy);
          if r.Err? {
            PlegarFalla(inicio, todas, n + 1, VenderLinea(db.variantes, venta, hoy));
            return;
          }
        } else {
          assert LineasConStock(lineas[..i + 1]) == LineasConStock(lineas[..i]) + [];
        }
      }
      assert lineas[..|lineas|] == lineas;
    }

    /** The stock of every line, or of none. */
    method VenderTodas(venta: nat, lineas: seq<LineaCalculada>, hoy: nat) returns (r: Resultado<()>)
      requires LineasPositivas(LineasConStock(lineas))
      modifies db`saldos, db`ledger, db`lotes
      ensures Resuelto(Vender(old(db.Foto()), venta, LineasConStock(lineas), hoy), old(db.Foto()), db.Foto(), r)
    {
      var saldos, ledger, lotes := db.saldos, db.ledger, db.lotes;
      r := VenderLineas(venta, lineas, hoy);
      if r.Err? {
        db.saldos, db.ledger, db.lotes := saldos, ledger, lotes;
      }
    }

    /** crear: a retry returns the sale already made; otherwise lines, stock, sale and promotion uses. */
    method Crear(p: PedidoVenta) returns (r: Resultado<()>)
      modifies db`saldos, db`ledger, db`lotes, db`ventas, db`promociones
      ensures Resuelto(Ventas.Crear(old(db.FotoVentas()), p), old(db.FotoVentas()), db.FotoVentas(), r)
      ensures old(VentasBien(db.FotoVentas())) ==> VentasBien(db.FotoVentas())
    {
      ghost var antes := db.FotoVentas();
      r := CrearEnTransaccion(p);
      CrearResuelto(antes, p, db.FotoVentas(), r);
    }

    method CrearEnTransaccion(p: PedidoVenta) returns (r: Resultado<()>)
      modifies db`saldos, db`ledger, db`lotes, db`ventas, db`promociones
      ensures Resuelto(Ventas.Crear(old(db.FotoVentas()), p), old(db.FotoVentas()), db.FotoVentas(), r)
    {
      if !PedidoValido(p) {
        return Err(Invalido);
      }
      if VentaConClave(db.ventas, p.clave) {
        return Ok(());
      }
      var lineas := CalcularLineas(p);
      if lineas.Err? {
        return Err(lineas.error);
      }
      LineasConStockPositivas(db.FotoVentas(), p);
      r := VenderTodas(|db.ventas|, lineas.value, p.hoy);
      if r.Err? {
        return;
      }
      db.ventas := db.ventas + [VentaDe(p, lineas.value)];
      db.promociones := ContarUsos(db.promociones, Usadas(lineas.value));
    }

    // ---------------------------------------------------------------- a refund

    /** reingresarStock: back into the balance, at its average, with an entry. */
    method ReingresarStock(c: Celda, cantidad: real, devolucion: nat) returns (r: Resultado<()>)
      modifies db`saldos, db`ledger
      ensures match Reingresar(old(db.Stock()), c, cantidad, devolucion)
        case Ok(k) => r == Ok(()) && db.Stock() == k
        case Err(e) => r == Err(e)
    {
      var costo := 0.0;
      if c !in db.saldos {
        db.saldos := db.saldos[c := VACIO.(enStock := cantidad, available := cantidad)];
      } else {
        var balance := db.saldos[c];
        costo := balance.costoPromedio;
        db.saldos := db.saldos[c := balance.(enStock := balance.enStock + cantidad, available := balance.available + cantidad)];
      }
      r := db.InsertarAsiento(Asiento(c, None, DEVOLUCION_VENTA, cantidad, costo, Valor(cantidad, costo), None,
                                      Devolucion(devolucion, c.almacen, c.variante)));
    }

    method ReponerUna(v: Venta, devolucion: nat, it: ItemDevolucion, almacenDefault: Option<AlmacenId>) returns (r: Resultado<()>)
      modifies db`saldos, db`ledger
      ensures match ReponerLinea(db.variantes, v, devolucion, almacenDefault)(old(db.Stock()), it)
        case Ok(k) => r == Ok(()) && db.Stock() == k
        case Err(e) => r == Err(e)
    {
      if it.linea >= |v.lineas| || v.lineas[it.linea].variante !in db.variantes {
        return Err(NoEncontrado);
      }
      var variante := v.lineas[it.linea].variante;
      var restock := it.restock.GetOr(true);
      if !restock || !db.variantes[variante].isStockTracked {
        return Ok(());
      }
      var almacen := if it.almacen.Some? then it.almacen else almacenDefault;
      if almacen.None? {
        return Err(Conflicto);
      }
      r := ReingresarStock(Celda(almacen.value, variante), it.cantidad, devolucion);
    }

    method ReponerLineas(v: Venta, devolucion: nat, items: seq<ItemDevolucion>, almacenDefault: Option<AlmacenId>) returns (r: Resultado<()>)
      modifies db`saldos, db`ledger
      ensures match Plegar(old(db.Stock()), items, ReponerLinea(db.variantes, v, devolucion, almacenDefault))
        case Ok(k) => r == Ok(()) && db.Stock() == k
        case Err(e) => r == Err(e)
    {
      ghost var inicio := db.Stock();
      r := Ok(());
      for i := 0 to |items|
        invariant r == Ok(()) && Plegar(inicio, items[..i], ReponerLinea(db.variantes, v, devolucion, almacenDefault)) == Ok(db.Stock())
      {
        PlegarPaso(inicio, items, i, ReponerLinea(db.variantes, v, devolucion, almacenDefault));
        r := ReponerUna(v, devolucion, items[i], almacenDefault);
        if r.Err? {
          PlegarFalla(inicio, items, i + 1, ReponerLinea(db.variantes, v, devolucion, almacenDefault));
          return;
        }
      }
      assert items[..|items|] == items;
    }

    /** The refunded lines, and the three totals they add up while they are checked. */
    method CalcularDevueltas(v: Venta, venta: nat, items: seq<ItemDevolucion>)
      returns (r: Resultado<seq<LineaDevuelta>>, subtotal: real, totalImpuesto: real, total: real)
      ensures r == Plegar([], items, CalcularDevuelta(v, db.reembolsos, venta))
      ensures r.Ok? ==> subtotal == Suma(r.value, Neto())
      ensures r.Ok? ==> totalImpuesto == Suma(r.value, ImpuestoDevuelto())
      ensures r.Ok? ==> total == Suma(r.value, TotalDevuelto())
    {
      r, subtotal, totalImpuesto, total := Ok([]), 0.0, 0.0, 0.0;
      for i := 0 to |items|
        invariant r.Ok? && r == Plegar([], items[..i], CalcularDevuelta(v, db.reembolsos, venta))
        invariant subtotal == Suma(r.value, Neto()) && totalImpuesto == Suma(r.value, ImpuestoDevuelto())
               && total == Suma(r.value, TotalDevuelto())
      {
        PlegarPaso([], items, i, CalcularDevuelta(v, db.reembolsos, venta));
        var it := items[i];
        if it.linea >= |v.lineas| {
          PlegarFalla([], items, i + 1, CalcularDevuelta(v, db.reembolsos, venta));
          r := Err(NoEncontrado);
          return;
        }
        var si := v.lineas[it.linea];
        var previo := Devuelto(db.reembolsos, venta, it.linea);
        if it.cantidad + previo > si.cantidad {
          PlegarFalla([], items, i + 1, CalcularDevuelta(v, db.reembolsos, venta));
          r := Err(Conflicto);
          return;
        }
        var linea := DevolverLinea(si, it);
        subtotal := subtotal + (linea.total - linea.montoImpuesto);
        totalImpuesto := totalImpuesto + linea.montoImpuesto;
        total := total + linea.total;
        r := Ok(r.value + [linea]);
      }
      assert items[..|items|] == items;
    }

    /** The refund's row, and what it makes of its sale and of the promotions the sale used. */
    method AnotarReembolso(reembolso: Reembolso)
      requires reembolso.venta < |db.ventas|
      modifies db`ventas, db`reembolsos, db`promociones
      ensures db.FotoVentas() == AplicarReembolso(old(db.FotoVentas()), reembolso)
    {
      var venta := db.ventas[reembolso.venta];
      db.reembolsos := db.reembolsos + [reembolso];
      var todo := Todo(venta, db.reembolsos, reembolso.venta);
      if Algo(venta, db.reembolsos, reembolso.venta) {
        db.ventas := db.ventas[reembolso.venta := venta.(estado := if todo then DEVUELTA else DEVUELTA_PARCIALMENTE)];
      }
      if todo {
        db.promociones := LiberarUsos(db.promociones, Usadas(venta.lineas));
      }
    }

    /** devolver: a retry returns the refund already made; otherwise amounts, stock, state and uses. */
    method Devolver(p: PedidoDevolucion) returns (r: Resultado<()>)
      modifies db`saldos, db`ledger, db`ventas, db`reembolsos, db`promociones
      ensures Resuelto(Ventas.Devolver(old(db.FotoVentas()), p), old(db.FotoVentas()), db.FotoVentas(), r)
      ensures old(VentasBien(db.FotoVentas())) ==> VentasBien(db.FotoVentas())
    {
      ghost var antes := db.FotoVentas();
      r := DevolverEnTransaccion(p);
      DevolverResuelto(antes, p, db.FotoVentas(), r);
    }

    method DevolverEnTransaccion(p: PedidoDevolucion) returns (r: Resultado<()>)
      modifies db`saldos, db`ledger, db`ventas, db`reembolsos, db`promociones
      ensures Resuelto(Ventas.Devolver(old(db.FotoVentas()), p), old(db.FotoVentas()), db.FotoVentas(), r)
    {
      if !DevolucionValida(p) {
        return Err(Invalido);
      }
      if p.venta >= |db.ventas| {
        return Err(NoEncontrado);
      }
      if ReembolsoConClave(db.reembolsos, p.clave) {
        return Ok(());
      }
      var venta := db.ventas[p.venta];
      if venta.estado == ANULADA {
        return Err(Conflicto);
      }
      var lineas, subtotal, totalImpuesto, total := CalcularDevueltas(venta, p.venta, p.items);
      if lineas.Err? {
        return Err(lineas.error);
      }
      if ReembolsoConNumero(db.reembolsos, p.number) {
        return Err(ClaveRepetida);
      }
      var saldos, ledger := db.saldos, db.ledger;
      r := ReponerLineas(venta, |db.reembolsos|, p.items, p.almacenDefault);
      if r.Err? {
        db.saldos, db.ledger := saldos, ledger;
        return;
      }
      AnotarReembolso(Reembolso(p.venta, p.clave, p.number, subtotal, totalImpuesto, total, lineas.value));
    }
  }

  lemma {:induction false} CrearResuelto(antes: EstadoVentas, p: PedidoVenta, despues: EstadoVentas, r: Resultado<()>)
    requires Resuelto(Ventas.Crear(antes, p), antes, despues, r)
    ensures VentasBien(antes) ==> VentasBien(despues)
  {
    if VentasBien(antes) && Ventas.Crear(antes, p).Ok? {
      CrearMantiene(antes, p);
    }
  }

  lemma {:induction false} DevolverResuelto(antes: EstadoVentas, p: PedidoDevolucion, despues: EstadoVentas, r: Resultado<()>)
    requires Resuelto(Ventas.Devolver(antes, p), antes, despues, r)
    ensures VentasBien(antes) ==> VentasBien(despues)
  {
    if VentasBien(antes) && Ventas.Devolver(antes, p).Ok? {
      DevolverMantiene(antes, p);
    }
  }

  lemma {:induction false} PrefijoConStock(lineas: seq<LineaCalculada>, n: nat)
    requires n <= |lineas|
    ensures |LineasConStock(lineas[..n])| <= |LineasConStock(lineas)|
    ensures LineasConStock(lineas[..n]) == LineasConStock(lineas)[..|LineasConStock(lineas[..n])|]
  {
    if n == |lineas| {
      assert lineas[..n] == lineas;
    } else {
      PrefijoConStock(lineas[..|lineas| - 1], n);
      assert lineas[..|lineas| - 1][..n] == lineas[..n];
    }
  }

  lemma {:induction false} ConStockPositivas(lineas: seq<LineaCalculada>)
    requires forall i :: 0 <= i < |lineas| ==> lineas[i].cantidad > 0.0
    ensures LineasPositivas(LineasConStock(lineas))
  {
    if |lineas| > 0 {
      ConStockPositivas(lineas[..|lineas| - 1]);
    }
  }

  lemma {:induction false} LineasConStockPositivas(s: EstadoVentas, p: PedidoVenta)
    requires PedidoValido(p) && Ventas.CalcularLineas(s, p).Ok?
    ensures LineasPositivas(LineasConStock(Ventas.CalcularLineas(s, p).value))
  {
    LineasBien(s, p);
    ConStockPositivas(Ventas.CalcularLineas(s, p).value);
  }
}
