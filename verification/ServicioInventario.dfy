/** The inventory service as it runs: reads, checks and writes row by row, in one transaction
    that is undone when a check fails. Each method is proved against the function that specifies
    it, and so keeps the invariant of the stock tables. */
module ServicioInventario {
  import opened Comun
  import opened Kardex
  import opened Movimientos
  import opened Existencias
  import opened Inventario
  import opened Invariante
  import opened Tablas

  class InventarioService {
    const db: Tablas

    constructor (db: Tablas)
      ensures this.db == db
    {
      this.db := db;
    }

    /** Put the balance and ledger tables back as a failed transaction found them. */
    method Deshacer(saldos: map<Celda, Saldo>, ledger: seq<Asiento>)
      modifies db`saldos, db`ledger
      ensures db.saldos == saldos && db.ledger == ledger
    {
      db.saldos, db.ledger := saldos, ledger;
    }

    method RegistrarStockInicial(c: Celda, cantidad: real, costo: real, clave: string) returns (r: Resultado<()>)
      modifies db`saldos, db`ledger
      ensures Resuelto(Inventario.RegistrarStockInicial(old(db.Foto()), c, cantidad, costo, clave), old(db.Foto()), db.Foto(), r)
      ensures old(Valido(db.Foto())) ==> Valido(db.Foto())
    {
      ghost var antes := db.Foto();
      if cantidad <= 0.0 || costo < 0.0 || clave == "" {
        return Err(Invalido);
      }
      if ClaveUsada(db.ledger, Cliente(clave)) {
        return Ok(());
      }
      if c.almacen !in db.almacenes || !db.almacenes[c.almacen] {
        return Err(NoEncontrado);
      }
      if c.variante !in db.variantes || !db.variantes[c.variante].activa {
        return Err(NoEncontrado);
      }
      if !db.variantes[c.variante].isStockTracked || c in db.saldos {
        return Err(Conflicto);
      }
      db.saldos := db.saldos[c := VACIO.(enStock := cantidad, available := cantidad, costoPromedio := costo)];
      // Checked above: the key is new, the quantity positive and the cost not negative.
      r := db.InsertarAsiento(Asiento(c, None, APERTURA, cantidad, costo, Valor(cantidad, costo), None, Cliente(clave)));
      if Valido(antes) {
        RegistrarStockInicialMantiene(antes, c, cantidad, costo, clave);
      }
    }

    /** crearAsientoAjuste. */
    method CrearAsientoAjuste(c: Celda, cantidad: real, costo: real, esEntrada: bool, clave: Clave) returns (r: Resultado<()>)
      modifies db`ledger
      ensures match Asentar(old(db.ledger), AsientoAjuste(c, cantidad, costo, esEntrada, clave))
        case Ok(l) => r == Ok(()) && db.ledger == l
        case Err(e) => r == Err(e) && db.ledger == old(db.ledger)
    {
      var conSigno := if esEntrada then cantidad else -cantidad;
      var valor := if esEntrada then Valor(cantidad, costo) else -Valor(cantidad, costo);
      r := db.InsertarAsiento(Asiento(c, None, if esEntrada then AJUSTE_ENTRADA else AJUSTE_SALIDA, conSigno, costo, valor, None, clave));
    }

    /** The balance and the entry of an adjustment that has passed its checks. */
    method AplicarAjuste(c: Celda, esEntrada: bool, cantidad: real, costoUnitario: Option<real>, permiteNegativo: bool, clave: Clave)
      returns (r: Resultado<()>)
      modifies db`saldos, db`ledger
      ensures match Ajustar(old(db.Stock()), c, esEntrada, cantidad, costoUnitario, permiteNegativo, clave)
        case Ok(k) => r == Ok(()) && db.Stock() == k
        case Err(e) => r == Err(e)
    {
      if c !in db.saldos {
        if !esEntrada {
          return Err(Conflicto);
        }
        var costo := costoUnitario.GetOr(0.0);
        db.saldos := db.saldos[c := VACIO.(enStock := cantidad, available := cantidad, costoPromedio := costo)];
        r := CrearAsientoAjuste(c, cantidad, costo, esEntrada, clave);
      } else {
        var saldo := db.saldos[c];
        var nuevoStock := if esEntrada then saldo.enStock + cantidad else saldo.enStock - cantidad;
        if nuevoStock < 0.0 && !permiteNegativo {
          return Err(Conflicto);
        }
        var nuevoAvg, costoMovimiento := saldo.costoPromedio, saldo.costoPromedio;
        if esEntrada && costoUnitario.Some? {
          costoMovimiento := costoUnitario.value;
          nuevoAvg := CostoPonderado(saldo.enStock, saldo.costoPromedio, cantidad, costoMovimiento);
        }
        db.saldos := db.saldos[c := saldo.(enStock := nuevoStock, available := nuevoStock - saldo.reserved, costoPromedio := nuevoAvg)];
        r := CrearAsientoAjuste(c, cantidad, costoMovimiento, esEntrada, clave);
      }
    }

    method AjustarStock(c: Celda, esEntrada: bool, cantidad: real, costoUnitario: Option<real>, clave: string, aleatorio: nat)
      returns (r: Resultado<()>)
      modifies db`saldos, db`ledger
      ensures Resuelto(Inventario.AjustarStock(old(db.Foto()), c, esEntrada, cantidad, costoUnitario, clave, aleatorio),
                       old(db.Foto()), db.Foto(), r)
      ensures old(Valido(db.Foto())) ==> Valido(db.Foto())
    {
      ghost var antes := db.Foto();
      if cantidad <= 0.0 || (costoUnitario.Some? && costoUnitario.value < 0.0) {
        return Err(Invalido);
      }
      if c.almacen !in db.almacenes || !db.almacenes[c.almacen] {
        return Err(NoEncontrado);
      }
      if c.variante !in db.variantes || !db.variantes[c.variante].activa {
        return Err(NoEncontrado);
      }
      var variante := db.variantes[c.variante];
      if !variante.isStockTracked {
        return Err(Conflicto);
      }
      var idempotencyKey := ClaveAjuste(c, clave, aleatorio);
      if clave != "" && ClaveUsada(db.ledger, idempotencyKey) {
        return Ok(());
      }
      var saldos, ledger := db.saldos, db.ledger;
      r := AplicarAjuste(c, esEntrada, cantidad, costoUnitario, variante.allowNegativeStock, idempotencyKey);
      if r.Err? {
        Deshacer(saldos, ledger);
        return;
      }
      if Valido(antes) {
        AjustarStockMantiene(antes, c, esEntrada, cantidad, costoUnitario, clave, aleatorio);
      }
    }

    method DefinirNivelStock(c: Celda, minimo: real, maximo: real) returns (r: Resultado<()>)
      modifies db`saldos
      ensures Resuelto(Inventario.DefinirNivelStock(old(db.Foto()), c, minimo, maximo), old(db.Foto()), db.Foto(), r)
      ensures old(Valido(db.Foto())) ==> Valido(db.Foto())
    {
      ghost var antes := db.Foto();
      if minimo < 0.0 || maximo < 0.0 {
        return Err(Invalido);
      }
      if maximo > 0.0 && maximo < minimo {
        return Err(Conflicto);
      }
      if c.almacen !in db.almacenes || !db.almacenes[c.almacen] || c.variante !in db.variantes || !db.variantes[c.variante].activa {
        return Err(NoEncontrado);
      }
      if !db.variantes[c.variante].isStockTracked {
        return Err(Conflicto);
      }
      if c in db.saldos {
        db.saldos := db.saldos[c := db.saldos[c].(stockMinimo := minimo, stockMaximo := maximo)];
      } else {
        db.saldos := db.saldos[c := VACIO.(stockMinimo := minimo, stockMaximo := maximo)];
      }
      if Valido(antes) {
        DefinirNivelStockMantiene(antes, c, minimo, maximo);
      }
      r := Ok(());
    }

    method CrearReserva(c: Celda, cantidad: real) returns (r: Resultado<()>)
      modifies db`saldos, db`reservas
      ensures Resuelto(Inventario.CrearReserva(old(db.Foto()), c, cantidad), old(db.Foto()), db.Foto(), r)
      ensures old(Valido(db.Foto())) ==> Valido(db.Foto())
    {
      ghost var antes := db.Foto();
      if cantidad <= 0.0 {
        return Err(Invalido);
      }
      if c.variante !in db.variantes || !db.variantes[c.variante].activa {
        return Err(NoEncontrado);
      }
      if !db.variantes[c.variante].isStockTracked || c !in db.saldos {
        return Err(Conflicto);
      }
      var saldo := db.saldos[c];
      var disponible := saldo.enStock - saldo.reserved;
      if disponible < cantidad {
        return Err(Conflicto);
      }
      var nuevoReserved := saldo.reserved + cantidad;
      db.saldos := db.saldos[c := saldo.(reserved := nuevoReserved, available := saldo.enStock - nuevoReserved)];
      db.reservas := db.reservas + [Reserva(c, cantidad, 0.0, ACTIVA)];
      if Valido(antes) {
        CrearReservaMantiene(antes, c, cantidad);
      }
      r := Ok(());
    }

    method LiberarReserva(id: nat) returns (r: Resultado<()>)
      modifies db`saldos, db`reservas
      ensures Resuelto(Inventario.LiberarReserva(old(db.Foto()), id), old(db.Foto()), db.Foto(), r)
      ensures old(Valido(db.Foto())) ==> Valido(db.Foto())
    {
      ghost var antes := db.Foto();
      if id >= |db.reservas| {
        return Err(NoEncontrado);
      }
      var reserva := db.reservas[id];
      if reserva.estado != ACTIVA && reserva.estado != PARCIALMENTE_ATENDIDA {
        return Err(Conflicto);
      }
      var pendiente := reserva.cantidad - reserva.cantidadAtendida;
      if pendiente > 0.0 && reserva.celda in db.saldos {
        var saldo := db.saldos[reserva.celda];
        var reserved := saldo.reserved - pendiente;
        if reserved < 0.0 {
          reserved := 0.0;
        }
        db.saldos := db.saldos[reserva.celda := saldo.(reserved := reserved, available := saldo.enStock - reserved)];
      }
      db.reservas := db.reservas[id := reserva.(estado := LIBERADA)];
      if Valido(antes) {
        LiberarReservaMantiene(antes, id);
      }
      r := Ok(());
    }

    // ---------------------------------------------------------------- counts

    method CrearConteo(almacen: AlmacenId, saldos: seq<VarianteId>) returns (r: Resultado<()>)
      modifies db`conteos
      ensures Resuelto(Inventario.CrearConteo(old(db.Foto()), almacen, saldos), old(db.Foto()), db.Foto(), r)
      ensures old(Valido(db.Foto())) ==> Valido(db.Foto())
    {
      ghost var antes := db.Foto();
      if almacen !in db.almacenes || !db.almacenes[almacen] {
        return Err(NoEncontrado);
      }
      if !FilasContables(db.Foto(), almacen, saldos) {
        return Err(Invalido);
      }
      var articulos: seq<ItemConteo> := [];
      for i := 0 to |saldos|
        invariant articulos == FotoDe(db.Stock(), almacen, saldos[..i])
      {
        assert saldos[..i + 1][..i] == saldos[..i];
        articulos := articulos + [ItemConteo(saldos[i], Fila(db.Stock(), Celda(almacen, saldos[i])).enStock, None, None)];
      }
      assert saldos[..|saldos|] == saldos;
      db.conteos := db.conteos + [ConteoFisico(almacen, EN_PROGRESO, articulos)];
      if Valido(antes) {
        CrearConteoMantiene(antes, almacen, saldos);
      }
      r := Ok(());
    }

    /** One counted quantity: onto its item, or onto a new one for stock nobody expected. */
    method AnotarUna(articulos: seq<ItemConteo>, art: Pedido) returns (r: Resultado<seq<ItemConteo>>)
      ensures r == AnotarContada(db.variantes)(articulos, art)
    {
      match IndiceItem(articulos, art.variante) {
        case Some(j) =>
          r := Ok(articulos[j := articulos[j].(contada := Some(art.cantidad), diferencia := Some(art.cantidad - articulos[j].esperada))]);
        case None =>
          if art.variante !in db.variantes || !db.variantes[art.variante].activa {
            return Err(NoEncontrado);
          }
          r := Ok(articulos + [ItemConteo(art.variante, 0.0, Some(art.cantidad), Some(art.cantidad))]);
      }
    }

    method AnotarTodas(articulos: seq<ItemConteo>, contadas: seq<Pedido>) returns (r: Resultado<seq<ItemConteo>>)
      ensures r == Plegar(articulos, contadas, AnotarContada(db.variantes))
    {
      r := Ok(articulos);
      for i := 0 to |contadas|
        invariant r.Ok? && r == Plegar(articulos, contadas[..i], AnotarContada(db.variantes))
      {
        PlegarPaso(articulos, contadas, i, AnotarContada(db.variantes));
        r := AnotarUna(r.value, contadas[i]);
        if r.Err? {
          PlegarFalla(articulos, contadas, i + 1, AnotarContada(db.variantes));
          return;
        }
      }
      assert contadas[..|contadas|] == contadas;
    }

    method RegistrarConteo(id: nat, contadas: seq<Pedido>) returns (r: Resultado<()>)
      modifies db`conteos
      ensures Resuelto(Inventario.RegistrarConteo(old(db.Foto()), id, contadas), old(db.Foto()), db.Foto(), r)
      ensures old(Valido(db.Foto())) ==> Valido(db.Foto())
    {
      ghost var antes := db.Foto();
      if !NingunoNegativo(contadas) {
        return Err(Invalido);
      }
      if id >= |db.conteos| {
        return Err(NoEncontrado);
      }
      var conteo := db.conteos[id];
      if conteo.estado != EN_PROGRESO && conteo.estado != ENVIADO {
        return Err(Conflicto);
      }
      var articulos := AnotarTodas(conteo.articulos, contadas);
      if articulos.Err? {
        return Err(articulos.error);
      }
      db.conteos := db.conteos[id := conteo.(articulos := articulos.value)];
      if Valido(antes) {
        RegistrarConteoMantiene(antes, id, contadas);
      }
      r := Ok(());
    }

    /** One counted item against the live stock: its balance row and, if they differ, its entry. */
    method ContabilizarItem(c: Celda, contada: real, conteo: nat) returns (r: Resultado<()>)
      modifies db`saldos, db`ledger
      ensures match Contar(old(db.Stock()), c, contada, conteo)
        case Ok(k) => r == Ok(()) && db.Stock() == k
        case Err(e) => r == Err(e)
    {
      var vivo, costo, reserved := 0.0, 0.0, 0.0;
      if c in db.saldos {
        vivo, costo, reserved := db.saldos[c].enStock, db.saldos[c].costoPromedio, db.saldos[c].reserved;
      }
      var diff := contada - vivo;
      if c in db.saldos {
        db.saldos := db.saldos[c := db.saldos[c].(enStock := contada, available := contada - reserved)];
      } else if contada > 0.0 {
        db.saldos := db.saldos[c := VACIO.(enStock := contada, available := contada, costoPromedio := costo)];
      }
      if diff == 0.0 {
        return Ok(());
      }
      r := db.InsertarAsiento(Asiento(c, None, if diff > 0.0 then GANANCIA_CONTEO else PERDIDA_CONTEO, diff, costo,
                                      Valor(diff, costo), Some(conteo), Conteo(conteo, c.variante)));
    }

    /** One item of the count: posted if it was counted, and refreshed with the stock it was posted against. */
    method ContabilizarUno(almacen: AlmacenId, id: nat, articulos: seq<ItemConteo>, item: ItemConteo) returns (r: Resultado<seq<ItemConteo>>)
      modifies db`saldos, db`ledger
      ensures match ContarItem(almacen, id)(Contado(old(db.Stock()), articulos), item)
        case Ok(x) => r == Ok(x.articulos) && db.Stock() == x.kardex
        case Err(e) => r == Err(e)
    {
      if item.contada.None? {
        return Ok(articulos + [item]);
      }
      var c := Celda(almacen, item.variante);
      var vivo := if c in db.saldos then db.saldos[c].enStock else 0.0;
      var paso := ContabilizarItem(c, item.contada.value, id);
      if paso.Err? {
        return Err(paso.error);
      }
      r := Ok(articulos + [item.(esperada := vivo, diferencia := Some(item.contada.value - vivo))]);
    }

    method ContabilizarItems(almacen: AlmacenId, id: nat, items: seq<ItemConteo>) returns (r: Resultado<seq<ItemConteo>>)
      modifies db`saldos, db`ledger
      ensures match Plegar(Contado(old(db.Stock()), []), items, ContarItem(almacen, id))
        case Ok(x) => r == Ok(x.articulos) && db.Stock() == x.kardex
        case Err(e) => r == Err(e)
    {
      ghost var inicio := Contado(db.Stock(), []);
      r := Ok([]);
      for i := 0 to |items|
        invariant r.Ok? && Plegar(inicio, items[..i], ContarItem(almacen, id)) == Ok(Contado(db.Stock(), r.value))
      {
        PlegarPaso(inicio, items, i, ContarItem(almacen, id));
        r := ContabilizarUno(almacen, id, r.value, items[i]);
        if r.Err? {
          PlegarFalla(inicio, items, i + 1, ContarItem(almacen, id));
          return;
        }
      }
      assert items[..|items|] == items;
    }

    method ContabilizarConteo(id: nat) returns (r: Resultado<()>)
      modifies db`saldos, db`ledger, db`conteos
      ensures Resuelto(Inventario.ContabilizarConteo(old(db.Foto()), id), old(db.Foto()), db.Foto(), r)
      ensures old(Valido(db.Foto())) ==> Valido(db.Foto())
    {
      ghost var antes := db.Foto();
      if id >= |db.conteos| {
        return Err(NoEncontrado);
      }
      var conteo := db.conteos[id];
      if conteo.estado != EN_PROGRESO && conteo.estado != ENVIADO {
        return Err(Conflicto);
      }
      var saldos, ledger := db.saldos, db.ledger;
      var articulos := ContabilizarItems(conteo.almacen, id, conteo.articulos);
      if articulos.Err? {
        Deshacer(saldos, ledger);
        return Err(articulos.error);
      }
      db.conteos := db.conteos[id := conteo.(articulos := articulos.value, estado := CONTABILIZADO)];
      if Valido(antes) {
        ContabilizarConteoMantiene(antes, id);
      }
      r := Ok(());
    }

    // ---------------------------------------------------------------- transfers

    /** One article leaves the origin and is on its way to the destination. */
    method DespacharArticulo(origen: Celda, destino: Celda, cantidad: real, permiteNegativo: bool, t: nat, clave: Clave)
      returns (r: Resultado<()>)
      modifies db`saldos, db`ledger
      ensures match Despachar(old(db.Stock()), origen, destino, cantidad, permiteNegativo, t, clave)
        case Ok(k) => r == Ok(()) && db.Stock() == k
        case Err(e) => r == Err(e)
    {
      if origen !in db.saldos {
        return Err(Conflicto);
      }
      var saldo := db.saldos[origen];
      var nuevoStock := saldo.enStock - cantidad;
      if nuevoStock < 0.0 && !permiteNegativo {
        return Err(Conflicto);
      }
      db.saldos := db.saldos[origen := saldo.(enStock := nuevoStock, available := nuevoStock - saldo.reserved)];
      r := db.InsertarAsiento(Asiento(origen, None, TRANSFERENCIA_SALIDA, -cantidad, saldo.costoPromedio,
                                      -Valor(cantidad, saldo.costoPromedio), Some(t), clave));
      if r.Err? {
        return;
      }
      if destino in db.saldos {
        db.saldos := db.saldos[destino := db.saldos[destino].(enTransito := db.saldos[destino].enTransito + cantidad)];
      } else {
        db.saldos := db.saldos[destino := VACIO.(enTransito := cantidad)];
      }
    }

    method ConsolidarPedidos(pedidos: seq<Pedido>) returns (porVariante: seq<Pedido>)
      ensures porVariante == Consolidar(pedidos)
    {
      porVariante := [];
      for i := 0 to |pedidos|
        invariant porVariante == Consolidar(pedidos[..i])
      {
        assert pedidos[..i + 1][..i] == pedidos[..i];
        match IndicePedido(porVariante, pedidos[i].variante) {
          case Some(j) =>
            porVariante := porVariante[j := porVariante[j].(cantidad := porVariante[j].cantidad + pedidos[i].cantidad)];
          case None =>
            porVariante := porVariante + [pedidos[i]];
        }
      }
      assert pedidos[..|pedidos|] == pedidos;
    }

    method DespacharPedido(p: Pedido, origen: AlmacenId, destino: AlmacenId, t: nat, clave: string) returns (r: Resultado<()>)
      modifies db`saldos, db`ledger
      ensures match DespachoDe(db.variantes, origen, destino, t, clave)(old(db.Stock()), p)
        case Ok(k) => r == Ok(()) && db.Stock() == k
        case Err(e) => r == Err(e)
    {
      if !VarianteActiva(db.variantes, p.variante) {
        return Err(NoEncontrado);
      }
      if !db.variantes[p.variante].isStockTracked {
        return Err(Conflicto);
      }
      r := DespacharArticulo(Celda(origen, p.variante), Celda(destino, p.variante), p.cantidad,
                             db.variantes[p.variante].allowNegativeStock, t, TransfSalida(clave, p.variante));
    }

    method DespacharPedidos(ps: seq<Pedido>, origen: AlmacenId, destino: AlmacenId, t: nat, clave: string) returns (r: Resultado<()>)
      modifies db`saldos, db`ledger
      ensures match Plegar(old(db.Stock()), ps, DespachoDe(db.variantes, origen, destino, t, clave))
        case Ok(k) => r == Ok(()) && db.Stock() == k
        case Err(e) => r == Err(e)
    {
      ghost var inicio := db.Stock();
      r := Ok(());
      for i := 0 to |ps|
        invariant r == Ok(()) && Plegar(inicio, ps[..i], DespachoDe(db.variantes, origen, destino, t, clave)) == Ok(db.Stock())
      {
        PlegarPaso(inicio, ps, i, DespachoDe(db.variantes, origen, destino, t, clave));
        r := DespacharPedido(ps[i], origen, destino, t, clave);
        if r.Err? {
          PlegarFalla(inicio, ps, i + 1, DespachoDe(db.variantes, origen, destino, t, clave));
          return;
        }
      }
      assert ps[..|ps|] == ps;
    }

    method CrearTransferencia(origen: AlmacenId, destino: AlmacenId, pedidos: seq<Pedido>, clave: string) returns (r: Resultado<()>)
      modifies db`saldos, db`ledger, db`transferencias
      ensures Resuelto(Inventario.CrearTransferencia(old(db.Foto()), origen, destino, pedidos, clave), old(db.Foto()), db.Foto(), r)
      ensures old(Valido(db.Foto())) ==> Valido(db.Foto())
    {
      ghost var antes := db.Foto();
      if !TodosPositivos(pedidos) {
        return Err(Invalido);
      }
      if origen == destino {
        return Err(Conflicto);
      }
      if SalidaConClave(db.ledger, clave) {
        return Ok(());
      }
      if origen !in db.almacenes || !db.almacenes[origen] || destino !in db.almacenes || !db.almacenes[destino] {
        return Err(NoEncontrado);
      }
      var porVariante := ConsolidarPedidos(pedidos);
      var saldos, ledger, id := db.saldos, db.ledger, |db.transferencias|;
      r := DespacharPedidos(porVariante, origen, destino, id, clave);
      if r.Err? {
        Deshacer(saldos, ledger);
        return;
      }
      db.transferencias := db.transferencias + [Transferencia(origen, destino, EN_TRANSITO, ArticulosDe(porVariante))];
      if Valido(antes) {
        CrearTransferenciaMantiene(antes, origen, destino, pedidos, clave);
      }
    }

    /** The recorded cost of an exit is not disturbed by entries of other kinds. */
    lemma {:induction false} CostoSalidaEstable(ledger: seq<Asiento>, a: Asiento, t: nat, v: VarianteId)
      requires a.tipo != TRANSFERENCIA_SALIDA
      ensures CostoSalida(ledger + [a], t, v) == CostoSalida(ledger, t, v)
    {
      assert (ledger + [a])[..|ledger|] == ledger;
    }

    /** One article enters the destination at its recorded exit cost. */
    method RecibirUno(c: Celda, cantidad: real, costo: real, t: nat, clave: Clave) returns (r: Resultado<()>)
      modifies db`saldos, db`ledger
      ensures match RecibirArticulo(old(db.Stock()), c, cantidad, costo, t, clave)
        case Ok(k) => r == Ok(()) && db.Stock() == k
        case Err(e) => r == Err(e)
      ensures forall v :: CostoSalida(db.ledger, t, v) == CostoSalida(old(db.ledger), t, v)
    {
      if c !in db.saldos {
        return Err(Conflicto);
      }
      var saldo := db.saldos[c];
      var nuevoStock := saldo.enStock + cantidad;
      var nuevoAvg := CostoPonderado(saldo.enStock, saldo.costoPromedio, cantidad, costo);
      var a := Asiento(c, None, TRANSFERENCIA_ENTRADA, cantidad, costo, Valor(cantidad, costo), Some(t), clave);
      db.saldos := db.saldos[c := saldo.(enStock := nuevoStock, available := nuevoStock - saldo.reserved,
                                         enTransito := saldo.enTransito - cantidad, costoPromedio := nuevoAvg)];
      forall v {
        CostoSalidaEstable(db.ledger, a, t, v);
      }
      r := db.InsertarAsiento(a);
    }

    method RecibirArticuloDe(ledger: seq<Asiento>, articulos: seq<Articulo>, item: Articulo, recibido: seq<Pedido>,
                             destino: AlmacenId, t: nat, clave: string)
      returns (r: Resultado<seq<Articulo>>)
      requires forall v :: CostoSalida(db.ledger, t, v) == CostoSalida(ledger, t, v)
      modifies db`saldos, db`ledger
      ensures match RecibirItem(ledger, recibido, destino, t, clave)(Recibido(old(db.Stock()), articulos), item)
        case Ok(x) => r == Ok(x.articulos) && db.Stock() == x.kardex
        case Err(e) => r == Err(e)
      ensures forall v :: CostoSalida(db.ledger, t, v) == CostoSalida(ledger, t, v)
    {
      var recibirAhora := Recibe(recibido, item.variante);
      if recibirAhora == 0.0 {
        return Ok(articulos + [item]);
      }
      var pendiente := item.shippedQty - item.receivedQty;
      if recibirAhora > pendiente {
        return Err(Conflicto);
      }
      var costo := CostoDe(db.ledger, t, item.variante);
      var uno := RecibirUno(Celda(destino, item.variante), recibirAhora, costo, t, TransfEntrada(clave, item.variante));
      if uno.Err? {
        return Err(uno.error);
      }
      r := Ok(articulos + [item.(receivedQty := item.receivedQty + recibirAhora)]);
    }

    method RecibirArticulos(items: seq<Articulo>, recibido: seq<Pedido>, destino: AlmacenId, t: nat, clave: string)
      returns (r: Resultado<seq<Articulo>>)
      modifies db`saldos, db`ledger
      ensures match Plegar(Recibido(old(db.Stock()), []), items, RecibirItem(old(db.ledger), recibido, destino, t, clave))
        case Ok(x) => r == Ok(x.articulos) && db.Stock() == x.kardex
        case Err(e) => r == Err(e)
    {
      ghost var inicio := Recibido(db.Stock(), []);
      var ledger := db.ledger;
      r := Ok([]);
      for i := 0 to |items|
        invariant r.Ok? && Plegar(inicio, items[..i], RecibirItem(ledger, recibido, destino, t, clave)) == Ok(Recibido(db.Stock(), r.value))
        invariant forall v :: CostoSalida(db.ledger, t, v) == CostoSalida(ledger, t, v)
      {
        PlegarPaso(inicio, items, i, RecibirItem(ledger, recibido, destino, t, clave));
        r := RecibirArticuloDe(ledger, r.value, items[i], recibido, destino, t, clave);
        if r.Err? {
          PlegarFalla(inicio, items, i + 1, RecibirItem(ledger, recibido, destino, t, clave));
          return;
        }
      }
      assert items[..|items|] == items;
    }

    /** The quantities of the request that are not zero, by variant. */
    method ConsolidarRecibido(pedidos: seq<Pedido>) returns (recibido: seq<Pedido>)
      ensures recibido == Consolidar(SoloPositivos(pedidos))
    {
      var positivos: seq<Pedido> := [];
      for i := 0 to |pedidos|
        invariant positivos == SoloPositivos(pedidos[..i])
      {
        assert pedidos[..i + 1][..i] == pedidos[..i];
        if pedidos[i].cantidad > 0.0 {
          positivos := positivos + [pedidos[i]];
        }
      }
      assert pedidos[..|pedidos|] == pedidos;
      recibido := ConsolidarPedidos(positivos);
    }

    method RecibirTransferencia(id: nat, pedidos: seq<Pedido>, clave: string) returns (r: Resultado<()>)
      modifies db`saldos, db`ledger, db`transferencias
      ensures Resuelto(Inventario.RecibirTransferencia(old(db.Foto()), id, pedidos, clave), old(db.Foto()), db.Foto(), r)
      ensures old(Valido(db.Foto())) ==> Valido(db.Foto())
    {
      ghost var antes := db.Foto();
      if !NingunoNegativo(pedidos) {
        return Err(Invalido);
      }
      if id >= |db.transferencias| {
        return Err(NoEncontrado);
      }
      if EntradaConClave(db.ledger, clave) {
        return Ok(());
      }
      var transfer := db.transferencias[id];
      if transfer.estado != EN_TRANSITO && transfer.estado != RECIBIDA_PARCIALMENTE {
        return Err(Conflicto);
      }
      var recibido := ConsolidarRecibido(pedidos);
      var saldos, ledger := db.saldos, db.ledger;
      var articulos := RecibirArticulos(transfer.articulos, recibido, transfer.destino, id, clave);
      if articulos.Err? {
        Deshacer(saldos, ledger);
        return Err(articulos.error);
      }
      db.transferencias := db.transferencias[id := transfer.(articulos := articulos.value,
        estado := if TodoRecibido(articulos.value) then RECIBIDA else RECIBIDA_PARCIALMENTE)];
      if Valido(antes) {
        RecibirTransferenciaMantiene(antes, id, pedidos, clave);
      }
      r := Ok(());
    }

    /** One article back in the origin and off the way to the destination. */
    method CancelarUno(origen: Celda, destino: Celda, cantidad: real, costo: real, t: nat) returns (r: Resultado<()>)
      modifies db`saldos, db`ledger
      ensures match CancelarArticulo(old(db.Stock()), origen, destino, cantidad, costo, t)
        case Ok(k) => r == Ok(()) && db.Stock() == k
        case Err(e) => r == Err(e)
      ensures forall v :: CostoSalida(db.ledger, t, v) == CostoSalida(old(db.ledger), t, v)
    {
      if origen in db.saldos {
        var saldo := db.saldos[origen];
        var enStock := saldo.enStock + cantidad;
        db.saldos := db.saldos[origen := saldo.(enStock := enStock, available := enStock - saldo.reserved)];
      }
      var a := Asiento(origen, None, TRANSFERENCIA_ENTRADA, cantidad, costo, Valor(cantidad, costo), Some(t),
                       TransfCancel(t, origen.variante));
      forall v {
        CostoSalidaEstable(db.ledger, a, t, v);
      }
      r := db.InsertarAsiento(a);
      if r.Err? {
        return;
      }
      if destino in db.saldos {
        var enTransito := db.saldos[destino].enTransito - cantidad;
        if enTransito < 0.0 {
          enTransito := 0.0;
        }
        db.saldos := db.saldos[destino := db.saldos[destino].(enTransito := enTransito)];
      }
    }

    method CancelarArticuloDe(ledger: seq<Asiento>, item: Articulo, origen: AlmacenId, destino: AlmacenId, t: nat) returns (r: Resultado<()>)
      requires forall v :: CostoSalida(db.ledger, t, v) == CostoSalida(ledger, t, v)
      modifies db`saldos, db`ledger
      ensures match CancelarItem(ledger, origen, destino, t)(old(db.Stock()), item)
        case Ok(k) => r == Ok(()) && db.Stock() == k
        case Err(e) => r == Err(e)
      ensures forall v :: CostoSalida(db.ledger, t, v) == CostoSalida(ledger, t, v)
    {
      if item.shippedQty <= 0.0 {
        return Ok(());
      }
      var costo := CostoDe(db.ledger, t, item.variante);
      assert CancelarItem(ledger, origen, destino, t)(db.Stock(), item)
          == CancelarArticulo(db.Stock(), Celda(origen, item.variante), Celda(destino, item.variante), item.shippedQty, costo, t);
      r := CancelarUno(Celda(origen, item.variante), Celda(destino, item.variante), item.shippedQty, costo, t);
    }

    method CancelarArticulos(items: seq<Articulo>, origen: AlmacenId, destino: AlmacenId, t: nat) returns (r: Resultado<()>)
      modifies db`saldos, db`ledger
      ensures match Plegar(old(db.Stock()), items, CancelarItem(old(db.ledger), origen, destino, t))
        case Ok(k) => r == Ok(()) && db.Stock() == k
        case Err(e) => r == Err(e)
    {
      ghost var inicio := db.Stock();
      var ledger := db.ledger;
      r := Ok(());
      for i := 0 to |items|
        invariant r == Ok(()) && Plegar(inicio, items[..i], CancelarItem(ledger, origen, destino, t)) == Ok(db.Stock())
        invariant forall v :: CostoSalida(db.ledger, t, v) == CostoSalida(ledger, t, v)
      {
        PlegarPaso(inicio, items, i, CancelarItem(ledger, origen, destino, t));
        r := CancelarArticuloDe(ledger, items[i], origen, destino, t);
        if r.Err? {
          PlegarFalla(inicio, items, i + 1, CancelarItem(ledger, origen, destino, t));
          return;
        }
      }
      assert items[..|items|] == items;
    }

    method CancelarTransferencia(id: nat) returns (r: Resultado<()>)
      modifies db`saldos, db`ledger, db`transferencias
      ensures Resuelto(Inventario.CancelarTransferencia(old(db.Foto()), id), old(db.Foto()), db.Foto(), r)
      ensures old(Valido(db.Foto())) ==> Valido(db.Foto())
    {
      ghost var antes := db.Foto();
      if id >= |db.transferencias| {
        return Err(NoEncontrado);
      }
      var transfer := db.transferencias[id];
      if transfer.estado != EN_TRANSITO {
        return Err(Conflicto);
      }
      if AlgoRecibido(transfer.articulos) {
        return Err(Conflicto);
      }
      var saldos, ledger := db.saldos, db.ledger;
      r := CancelarArticulos(transfer.articulos, transfer.origen, transfer.destino, id);
      if r.Err? {
        Deshacer(saldos, ledger);
        return;
      }
      db.transferencias := db.transferencias[id := transfer.(estado := CANCELADA)];
      if Valido(antes) {
        CancelarTransferenciaMantiene(antes, id);
      }
    }

    method CancelarConteo(id: nat) returns (r: Resultado<()>)
      modifies db`conteos
      ensures Resuelto(Inventario.CancelarConteo(old(db.Foto()), id), old(db.Foto()), db.Foto(), r)
      ensures old(Valido(db.Foto())) ==> Valido(db.Foto())
    {
      ghost var antes := db.Foto();
      if id >= |db.conteos| {
        return Err(NoEncontrado);
      }
      if db.conteos[id].estado == CONTABILIZADO {
        return Err(Conflicto);
      }
      db.conteos := db.conteos[id := db.conteos[id].(estado := CANCELADO)];
      if Valido(antes) {
        CancelarConteoMantiene(antes, id);
      }
      r := Ok(());
    }
  }
}
