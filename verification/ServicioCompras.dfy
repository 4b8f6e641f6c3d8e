/** The purchasing service and the opening stock of the catalogue, as they run. */
module ServicioCompras {
  import opened Comun
  import opened Kardex
  import opened Movimientos
  import opened Lotes
  import opened Existencias
  import ModeloExistencias = Existencias
  import opened Inventario
  import opened Invariante
  import opened Tablas

  class ComprasService {
    const db: Tablas

    constructor (db: Tablas)
      ensures this.db == db
    {
      this.db := db;
    }

    /** ingresarStock: weighted average and an inbound entry. */
    method IngresarStock(c: Celda, cantidad: real, costo: real, recepcion: nat) returns (r: Resultado<()>)
      modifies db`saldos, db`ledger
      ensures match Ingresar(old(db.Stock()), c, cantidad, costo, recepcion)
        case Ok(k) => r == Ok(()) && db.Stock() == k
        case Err(e) => r == Err(e)
    {
      if c !in db.saldos {
        db.saldos := db.saldos[c := VACIO.(enStock := cantidad, available := cantidad, costoPromedio := costo)];
      } else {
        var balance := db.saldos[c];
        var stockNuevo := balance.enStock + cantidad;
        var costoPromedio := costo;
        if stockNuevo > 0.0 {
          costoPromedio := (Valor(balance.enStock, balance.costoPromedio) + Valor(cantidad, costo)) / stockNuevo;
        }
        db.saldos := db.saldos[c := balance.(enStock := balance.enStock + cantidad, available := balance.available + cantidad,
                                             costoPromedio := costoPromedio)];
      }
      r := db.InsertarAsiento(Asiento(c, None, RECEPCION_COMPRA, cantidad, costo, Valor(cantidad, costo), None,
                                      Recepcion(recepcion, c.almacen, c.variante)));
    }

    /** registrarLote: add to the lot of that number, or open it. */
    method RegistrarLote(c: Celda, numero: string, cantidad: real, venceEn: Option<nat>)
      modifies db`lotes
      ensures db.lotes == ModeloExistencias.RegistrarLote(old(db.lotes), c, numero, cantidad, venceEn)
    {
      match BuscarLote(db.lotes, c, numero) {
        case Some(i) =>
          var lote := db.lotes[i];
          db.lotes := db.lotes[i := lote.(cantidad := lote.cantidad + cantidad,
                                          venceEn := if venceEn.Some? then venceEn else lote.venceEn)];
        case None =>
          db.lotes := db.lotes + [Lote(c, numero, cantidad, venceEn)];
      }
    }

    /** One line of a receipt: its row, its stock and its lot. */
    method IngresarLinea(almacen: AlmacenId, recepcion: nat, item: ItemCompra) returns (r: Resultado<()>)
      modifies db`saldos, db`ledger, db`lotes, db`recibidos
      ensures match IngresarItem(almacen, recepcion)(Entrada(old(db.Stock()), old(db.lotes), old(db.recibidos)), item)
        case Ok(e) => r == Ok(()) && Entrada(db.Stock(), db.lotes, db.recibidos) == e
        case Err(e) => r == Err(e)
    {
      var c := Celda(almacen, item.variante);
      db.recibidos := db.recibidos + [ItemRecepcion(recepcion, c, item.cantidad, item.costoUnitario, item.lotNumber, item.venceEn)];
      r := IngresarStock(c, item.cantidad, item.costoUnitario, recepcion);
      if r.Err? {
        return;
      }
      if item.lotNumber != "" {
        RegistrarLote(c, item.lotNumber, item.cantidad, item.venceEn);
      }
    }

    method IngresarLineas(almacen: AlmacenId, recepcion: nat, items: seq<ItemCompra>) returns (r: Resultado<()>)
      modifies db`saldos, db`ledger, db`lotes, db`recibidos
      ensures match Plegar(Entrada(old(db.Stock()), old(db.lotes), old(db.recibidos)), items, IngresarItem(almacen, recepcion))
        case Ok(e) => r == Ok(()) && Entrada(db.Stock(), db.lotes, db.recibidos) == e
        case Err(e) => r == Err(e)
    {
      ghost var inicio := Entrada(db.Stock(), db.lotes, db.recibidos);
      r := Ok(());
      for i := 0 to |items|
        invariant r == Ok(())
        invariant Plegar(inicio, items[..i], IngresarItem(almacen, recepcion)) == Ok(Entrada(db.Stock(), db.lotes, db.recibidos))
      {
        PlegarPaso(inicio, items, i, IngresarItem(almacen, recepcion));
        r := IngresarLinea(almacen, recepcion, items[i]);
        if r.Err? {
          PlegarFalla(inicio, items, i + 1, IngresarItem(almacen, recepcion));
          return;
        }
      }
      assert items[..|items|] == items;
    }

    method Recepcionar(clave: string, numero: string, almacen: AlmacenId, items: seq<ItemCompra>) returns (r: Resultado<()>)
      modifies db`saldos, db`ledger, db`lotes, db`recibidos, db`recepciones
      ensures Resuelto(Inventario.Recepcionar(old(db.Foto()), clave, numero, almacen, items), old(db.Foto()), db.Foto(), r)
      ensures old(Valido(db.Foto())) ==> Valido(db.Foto())
    {
      ghost var antes := db.Foto();
      if !CantidadesPositivas(items) {
        return Err(Invalido);
      }
      if RecepcionConClave(db.recepciones, clave) {
        return Ok(());
      }
      if ConServicios(db.variantes, items) {
        return Err(Conflicto);
      }
      if RecepcionConNumero(db.recepciones, numero) {
        return Err(ClaveRepetida);
      }
      if almacen !in db.almacenes || ConDesconocidas(db.variantes, items) {
        return Err(NoEncontrado);
      }
      var saldos, ledger, lotes, recibidos, id := db.saldos, db.ledger, db.lotes, db.recibidos, |db.recepciones|;
      r := IngresarLineas(almacen, id, items);
      if r.Err? {
        db.saldos, db.ledger, db.lotes, db.recibidos := saldos, ledger, lotes, recibidos;
        return;
      }
      db.recepciones := db.recepciones + [RecepcionCompra(clave, numero)];
      if Valido(antes) {
        RecepcionarMantiene(antes, clave, numero, almacen, items);
      }
    }

    /** cargarStockInicial of the catalogue service: the balance and the opening entry of a new variant. */
    method CargarStockInicial(c: Celda, cantidad: real, costo: real) returns (r: Resultado<()>)
      modifies db`saldos, db`ledger
      ensures Resuelto(Inventario.CargarStockInicial(old(db.Foto()), c, cantidad, costo), old(db.Foto()), db.Foto(), r)
      ensures old(Valido(db.Foto())) ==> Valido(db.Foto())
    {
      ghost var antes := db.Foto();
      if cantidad <= 0.0 || costo < 0.0 {
        return Err(Invalido);
      }
      if c.variante !in db.variantes {
        return Err(NoEncontrado);
      }
      if !db.variantes[c.variante].isStockTracked {
        return Err(Invalido);
      }
      if c.almacen !in db.almacenes || !db.almacenes[c.almacen] {
        return Err(NoEncontrado);
      }
      if c in db.saldos {
        return Err(ClaveRepetida);
      }
      var saldos, ledger := db.saldos, db.ledger;
      db.saldos := db.saldos[c := VACIO.(enStock := cantidad, available := cantidad, costoPromedio := costo)];
      r := db.InsertarAsiento(Asiento(c, None, APERTURA, cantidad, costo, Valor(cantidad, costo), None, Apertura(c.variante, c.almacen)));
      if r.Err? {
        db.saldos, db.ledger := saldos, ledger;
        return;
      }
      if Valido(antes) {
        CargarStockInicialMantiene(antes, c, cantidad, costo);
      }
    }
  }
}
