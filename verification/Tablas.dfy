/** The tenant's tables as the services update them: one object whose fields are the tables, and
    whose rows are rewritten in place. */
module Tablas {
  import opened Comun
  import opened Kardex
  import opened Lotes
  import opened Existencias
  import opened Inventario
  import opened Invariante
  import opened Ventas

  class Tablas {
    var almacenes: map<AlmacenId, bool>
    var variantes: map<VarianteId, Variante>
    var saldos: map<Celda, Saldo>
    var ledger: seq<Asiento>
    var lotes: seq<Lote>
    var recepciones: seq<RecepcionCompra>
    var recibidos: seq<ItemRecepcion>
    var reservas: seq<Reserva>
    var transferencias: seq<Transferencia>
    var conteos: seq<ConteoFisico>
    var ventas: seq<Venta>
    var reembolsos: seq<Reembolso>
    var promociones: seq<FilaPromocion>

    /** The balance and ledger tables. */
    function Stock(): Kardex
      reads this
    {
      Kardex(saldos, ledger)
    }

    function Foto(): Estado
      reads this
    {
      Estado(almacenes, variantes, Stock(), lotes, recepciones, recibidos, reservas, transferencias, conteos)
    }

    function FotoVentas(): EstadoVentas
      reads this
    {
      EstadoVentas(Foto(), ventas, reembolsos, promociones)
    }

    constructor ()
      ensures FotoVentas() == VENTAS_INICIAL && Valido(Foto())
    {
      almacenes, variantes, saldos, ledger, lotes := map[], map[], map[], [], [];
      recepciones, recibidos, reservas, transferencias, conteos := [], [], [], [], [];
      ventas, reembolsos, promociones := [], [], [];
      new;
      InicialValido();
    }

    /** Insert a ledger row, subject to its constraints. */
    method InsertarAsiento(a: Asiento) returns (r: Resultado<()>)
      modifies this`ledger
      ensures match Asentar(old(ledger), a)
        case Ok(l) => r == Ok(()) && ledger == l
        case Err(e) => r == Err(e) && ledger == old(ledger)
    {
      if !Admitido(a) {
        return Err(Restringido);
      }
      if ClaveUsada(ledger, a.clave) {
        return Err(ClaveRepetida);
      }
      ledger := ledger + [a];
      r := Ok(());
    }
  }

  /** A transaction did what its specification says, or failed as it says and left every table alone. */
  ghost predicate Resuelto<S>(esperado: Resultado<S>, antes: S, despues: S, r: Resultado<()>) {
    match esperado
    case Ok(s) => r == Ok(()) && despues == s
    case Err(e) => r == Err(e) && despues == antes
  }
}
