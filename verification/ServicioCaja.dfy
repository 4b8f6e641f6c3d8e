/** The shop as its services run it: whole sales and receipts, fiscal documents and gateway charges, each one
    transaction over the stock and sales tables, the series, the payments and the accounts. */
module ServicioCaja {
  import opened Comun
  import opened Sumas
  import opened Inventario
  import opened Ventas
  import opened Numeracion
  import opened Emision
  import opened Pagos
  import opened Caja
  import Cuentas
  import Fiscal
  import opened Tablas
  import opened ServicioVentas
  import opened ServicioCompras

  class CajaService {
    const db: Tablas
    const ventas: VentasService
    const compras: ComprasService
    const carteraCobrar: Cuentas.Cartera
    const carteraPagar: Cuentas.Cartera
    var series: map<SerieId, Serie>
    var cabeceras: seq<Cabecera>
    var documentos: seq<Documento>
    var pagos: seq<PagoVenta>
    var intentos: seq<Intento>
    var facturas: seq<Compra>
    var deudores: seq<nat>
    var acreedores: seq<nat>

    /** The services share the tables, and the two sets of accounts are not one. */
    predicate Valid() {
      ventas.db == db && compras.db == db && carteraCobrar != carteraPagar
    }

    function FotoTalonario(): Talonario
      reads this
    {
      Talonario(series, cabeceras, documentos)
    }

    function FotoCobros(): Cobros
      reads this
    {
      Cobros(pagos, intentos)
    }

    function Foto(): Negocio
      reads this, db, carteraCobrar, carteraPagar
    {
      Negocio(db.FotoVentas(), FotoTalonario(), FotoCobros(), facturas,
              Deudas(carteraCobrar.Foto(), deudores), Deudas(carteraPagar.Foto(), acreedores))
    }

    constructor ()
      ensures Valid() && Foto() == NEGOCIO_INICIAL
    {
      var tablas := new Tablas();
      db := tablas;
      ventas := new VentasService(tablas);
      compras := new ComprasService(tablas);
      carteraCobrar := new Cuentas.Cartera();
      carteraPagar := new Cuentas.Cartera();
      series, cabeceras, documentos, pagos, intentos := map[], [], [], [], [];
      facturas, deudores, acreedores := [], [], [];
    }

    // ---------------------------------------------------------------- sales

    /** The sale's reservarCorrelativo: the next number of the series, which moves on. */
    method ReservarCorrelativo(id: SerieId) returns (r: Resultado<nat>)
      modifies this`series
      ensures if SerieLista(old(series), id)
        then r == Ok(old(series)[id].nextNumber) && series == Avanzar(old(series), id)
        else r == Err(NoEncontrado) && series == old(series)
    {
      if !SerieLista(series, id) {
        return Err(NoEncontrado);
      }
      r := Ok(series[id].nextNumber);
      series := series[id := series[id].(nextNumber := series[id].nextNumber + 1)];
    }

    /** The number of a sale and the part of its row that carries it, or neither. */
    method Numerar(id: SerieId, empresa: EmpresaId, sucursal: SucursalId, conCliente: bool) returns (r: Resultado<()>)
      modifies this`series, this`cabeceras
      ensures Resuelto(NumerarVenta(old(FotoTalonario()), id, empresa, sucursal, conCliente), old(FotoTalonario()), FotoTalonario(), r)
    {
      var antes := series;
      var numero := ReservarCorrelativo(id);
      if numero.Err? {
        return Err(numero.error);
      }
      var texto := series[id].texto;
      if NumeroOcupado(cabeceras, sucursal, texto, numero.value) {
        series := antes;
        return Err(ClaveRepetida);
      }
      cabeceras := cabeceras + [Cabecera(empresa, sucursal, conCliente, id, texto, numero.value)];
      r := Ok(());
    }

    /** One row for each payment of the sale. */
    method RegistrarPagos(venta: nat, montos: seq<real>)
      modifies this`pagos
      ensures pagos == old(pagos) + PagosDe(venta, montos)
    {
      for i := 0 to |montos|
        invariant pagos == old(pagos) + PagosDe(venta, montos[..i])
      {
        assert montos[..i + 1][..i] == montos[..i];
        pagos := pagos + [PagoVenta(venta, montos[i], None)];
      }
      assert montos[..|montos|] == montos;
    }

    /** generarCuentaPorCobrar: the unpaid rest, if any. */
    method GenerarCuentaPorCobrar(venta: nat, total: real, totalPagado: real)
      requires Valid()
      modifies this`deudores, carteraCobrar
      ensures Deudas(carteraCobrar.Foto(), deudores)
           == Anotar(Deudas(old(carteraCobrar.Foto()), old(deudores)), venta,
                     if total - totalPagado > 0.0 then Some(total - totalPagado) else None)
    {
      var saldo := total - totalPagado;
      if saldo <= 0.0 {
        return;
      }
      carteraCobrar.CrearCuenta(saldo);
      deudores := deudores + [venta];
    }

    /** The payments and the account of the sale just made. */
    method AnotarVenta(venta: nat, v: Venta, c: Cabecera, montos: seq<real>)
      requires Valid()
      modifies this`pagos, this`deudores, carteraCobrar
      ensures pagos == old(pagos) + PagosDe(venta, montos)
      ensures Deudas(carteraCobrar.Foto(), deudores) == Anotar(Deudas(old(carteraCobrar.Foto()), old(deudores)), venta, DebeVenta(v, c))
    {
      RegistrarPagos(venta, montos);
      if c.conCliente {
        GenerarCuentaPorCobrar(venta, v.total, v.totalPagado);
      }
    }

    /** The number, the sale and its stock, or none of them. */
    method VenderNumerado(p: PedidoCaja) returns (r: Resultado<()>)
      requires Valid()
      modifies this`series, this`cabeceras, db
      ensures match NumerarVenta(old(FotoTalonario()), p.serie, p.empresa, p.sucursal, p.conCliente)
        case Err(e) => r == Err(e) && FotoTalonario() == old(FotoTalonario()) && db.FotoVentas() == old(db.FotoVentas())
        case Ok(t) =>
          match Ventas.Crear(old(db.FotoVentas()), p.pedido)
          case Ok(s) => r == Ok(()) && FotoTalonario() == t && db.FotoVentas() == s
          case Err(e) => r == Err(e) && FotoTalonario() == old(FotoTalonario()) && db.FotoVentas() == old(db.FotoVentas())
    {
      var seriesAntes, cabecerasAntes := series, cabeceras;
      r := Numerar(p.serie, p.empresa, p.sucursal, p.conCliente);
      if r.Err? {
        return;
      }
      var vendida := ventas.Crear(p.pedido);
      if vendida.Err? {
        series, cabeceras := seriesAntes, cabecerasAntes;
        return Err(vendida.error);
      }
    }

    /** The sale with its number, and what hangs from it. */
    method VenderYAnotar(p: PedidoCaja, v: Venta) returns (r: Resultado<()>)
      requires Valid()
      modifies this`series, this`cabeceras, this`pagos, this`deudores, db, carteraCobrar
      ensures match NumerarVenta(old(FotoTalonario()), p.serie, p.empresa, p.sucursal, p.conCliente)
        case Err(e) => r == Err(e) && Foto() == old(Foto())
        case Ok(t) =>
          match Ventas.Crear(old(db.FotoVentas()), p.pedido)
          case Ok(s) => r == Ok(()) && Foto() == ConVenta(old(Foto()), s, t, v, p.pedido.pagos)
          case Err(e) => r == Err(e) && Foto() == old(Foto())
    {
      var venta := |db.ventas|;
      r := VenderNumerado(p);
      if r.Ok? {
        AnotarVenta(venta, v, cabeceras[|cabeceras| - 1], p.pedido.pagos);
      }
    }

    method CrearEnTransaccion(p: PedidoCaja) returns (r: Resultado<()>)
      requires Valid()
      modifies this`series, this`cabeceras, this`pagos, this`deudores, db, carteraCobrar
      ensures Resuelto(CrearVenta(old(Foto()), p), old(Foto()), Foto(), r)
    {
      if !PedidoValido(p.pedido) {
        return Err(Invalido);
      }
      if VentaConClave(db.ventas, p.pedido.clave) {
        return Ok(());
      }
      if p.rechazo.Some? {
        return Err(p.rechazo.value);
      }
      var lineas := ventas.CalcularLineas(p.pedido);
      if lineas.Err? {
        return Err(lineas.error);
      }
      r := VenderYAnotar(p, VentaDe(p.pedido, lineas.value));
    }

    /** crear, whole: number, lines, stock, sale, promotion uses, payments and account, or nothing. */
    method Crear(p: PedidoCaja) returns (r: Resultado<()>)
      requires Valid()
      modifies this`series, this`cabeceras, this`pagos, this`deudores, db, carteraCobrar
      ensures Resuelto(CrearVenta(old(Foto()), p), old(Foto()), Foto(), r)
      ensures old(NegocioBien(Foto())) ==> NegocioBien(Foto())
    {
      ghost var antes := Foto();
      r := CrearEnTransaccion(p);
      if NegocioBien(antes) && CrearVenta(antes, p).Ok? {
        CrearVentaMantiene(antes, p);
      }
    }

    // ---------------------------------------------------------------- fiscal documents

    /** The fiscal reservarCorrelativo, which does look at the type of the series. */
    method ReservarDeTipo(id: SerieId, tipo: TipoDocumento) returns (r: Resultado<nat>)
      modifies this`series
      ensures if !SerieLista(old(series), id) then r == Err(NoEncontrado) && series == old(series)
        else if old(series)[id].tipo != tipo then r == Err(Conflicto) && series == old(series)
        else r == Ok(old(series)[id].nextNumber) && series == Avanzar(old(series), id)
    {
      if !SerieLista(series, id) {
        return Err(NoEncontrado);
      }
      if series[id].tipo != tipo {
        return Err(Conflicto);
      }
      r := Ok(series[id].nextNumber);
      series := series[id := series[id].(nextNumber := series[id].nextNumber + 1)];
    }

    /** The row of a document, under its unique index. */
    method PersistirDocumento(d: Documento) returns (r: Resultado<()>)
      modifies this`documentos
      ensures if DocumentoOcupado(old(documentos), d.empresa, d.tipo, d.texto, d.numero)
        then r == Err(ClaveRepetida) && documentos == old(documentos)
        else r == Ok(()) && documentos == old(documentos) + [d]
    {
      if DocumentoOcupado(documentos, d.empresa, d.tipo, d.texto, d.numero) {
        return Err(ClaveRepetida);
      }
      documentos := documentos + [d];
      r := Ok(());
    }

    /** emitirDesdeVenta: a series of another company is found out after its number was taken. */
    method EmitirDesdeVenta(venta: nat, forzado: Option<TipoDocumento>, conRuc: bool, id: SerieId) returns (r: Resultado<()>)
      modifies this`series, this`documentos
      ensures Resuelto(Emitir(old(FotoTalonario()), venta, EstaAnulada(db.ventas, venta), forzado, conRuc, id),
                       old(FotoTalonario()), FotoTalonario(), r)
    {
      if forzado.Some? && forzado.value != FACTURA && forzado.value != BOLETA {
        return Err(Invalido);
      }
      if venta >= |cabeceras| {
        return Err(NoEncontrado);
      }
      if EstaAnulada(db.ventas, venta) {
        return Err(Conflicto);
      }
      var tipo := forzado.GetOr(if conRuc then FACTURA else BOLETA);
      if tipo == FACTURA && !conRuc {
        return Err(Invalido);
      }
      if YaEmitido(documentos, venta, tipo) {
        return Ok(());
      }
      var antes, empresa := series, cabeceras[venta].empresa;
      var numero := ReservarDeTipo(id, tipo);
      if numero.Err? {
        return Err(numero.error);
      }
      if series[id].empresa != empresa {
        series := antes;
        return Err(Invalido);
      }
      r := PersistirDocumento(Documento(empresa, tipo, series[id].texto, numero.value, id, venta, Fiscal.EN_COLA));
      if r.Err? {
        series := antes;
      }
    }

    method EmitirNotaCredito(origen: nat, id: SerieId) returns (r: Resultado<()>)
      modifies this`series, this`documentos
      ensures Resuelto(EmitirNota(old(FotoTalonario()), origen, id), old(FotoTalonario()), FotoTalonario(), r)
    {
      if origen >= |documentos| {
        return Err(NoEncontrado);
      }
      var antes, d := series, documentos[origen];
      if d.estado != Fiscal.ACEPTADO && d.estado != Fiscal.ACEPTADO_CON_OBSERVACIONES {
        return Err(Conflicto);
      }
      var numero := ReservarDeTipo(id, NOTA_CREDITO);
      if numero.Err? {
        return Err(numero.error);
      }
      r := PersistirDocumento(Documento(d.empresa, NOTA_CREDITO, series[id].texto, numero.value, id, d.venta, Fiscal.EN_COLA));
      if r.Err? {
        series := antes;
      }
    }

    // ---------------------------------------------------------------- gateway charges

    method ConciliarConVenta(i: Intento)
      modifies this`pagos
      ensures pagos == Conciliar(old(pagos), |db.ventas|, i)
    {
      if i.venta.None? || PagoConClave(pagos, i.clave) || i.venta.value >= |db.ventas| {
        return;
      }
      pagos := pagos + [PagoVenta(i.venta.value, i.monto, Some(i.clave))];
    }

    /** crearIntento; `capturada` is what the gateway answers. */
    method CrearCargo(i: Intento, capturada: bool)
      modifies this`pagos, this`intentos
      ensures FotoCobros() == CrearIntento(old(FotoCobros()), |db.ventas|, i, capturada)
    {
      if IntentoConClave(intentos, i.clave) {
        return;
      }
      intentos := intentos + [i];
      if capturada {
        ConciliarConVenta(i);
      }
    }

    /** procesarWebhook for the transaction of a charge. */
    method ProcesarAviso(intento: nat, capturada: bool)
      modifies this`pagos
      ensures FotoCobros() == Notificar(old(FotoCobros()), |db.ventas|, intento, capturada)
    {
      if intento < |intentos| && capturada {
        ConciliarConVenta(intentos[intento]);
      }
    }

    // ---------------------------------------------------------------- receipts

    /** The total of a receipt, taxes included. */
    method Totalizar(lineas: seq<LineaCompra>) returns (total: real)
      ensures total == Suma(lineas, Bruto()) + Suma(lineas, ImpuestoCompra())
    {
      var subtotal, totalImpuesto := 0.0, 0.0;
      for i := 0 to |lineas|
        invariant subtotal == Suma(lineas[..i], Bruto()) && totalImpuesto == Suma(lineas[..i], ImpuestoCompra())
      {
        assert lineas[..i + 1][..i] == lineas[..i];
        subtotal := subtotal + lineas[i].item.cantidad * lineas[i].item.costoUnitario;
        totalImpuesto := totalImpuesto + lineas[i].montoImpuesto.GetOr(0.0);
      }
      assert lineas[..|lineas|] == lineas;
      total := subtotal + totalImpuesto;
    }

    /** The total and the account of the receipt just made. */
    method AnotarCompra(p: PedidoCompra)
      requires Valid()
      modifies this`facturas, this`acreedores, carteraPagar
      ensures facturas == old(facturas) + [CompraDe(p)]
      ensures Deudas(carteraPagar.Foto(), acreedores)
           == Anotar(Deudas(old(carteraPagar.Foto()), old(acreedores)), |old(facturas)|, DebeCompra(CompraDe(p)))
    {
      var total := Totalizar(p.lineas);
      if p.aCredito {
        carteraPagar.CrearCuenta(total);
        acreedores := acreedores + [|facturas|];
      }
      facturas := facturas + [Compra(total, p.aCredito)];
    }

    method RecepcionarEnTransaccion(p: PedidoCompra) returns (r: Resultado<()>)
      requires Valid()
      modifies this`facturas, this`acreedores, db, carteraPagar
      ensures Resuelto(Recibir(old(Foto()), p), old(Foto()), Foto(), r)
    {
      ghost var antes := Foto();
      var repetida := RecepcionConClave(db.recepciones, p.clave);
      r := compras.Recepcionar(p.clave, p.numero, p.almacen, Items(p.lineas));
      assert db.FotoVentas() == antes.ventas.(inv := db.Foto());
      if r.Ok? && !repetida {
        AnotarCompra(p);
      }
    }

    /** recepcionar, whole: lines, stock, lots, receipt and account, or nothing. */
    method Recepcionar(p: PedidoCompra) returns (r: Resultado<()>)
      requires Valid()
      modifies this`facturas, this`acreedores, db, carteraPagar
      ensures Resuelto(Recibir(old(Foto()), p), old(Foto()), Foto(), r)
      ensures old(NegocioBien(Foto())) ==> NegocioBien(Foto())
    {
      ghost var antes := Foto();
      r := RecepcionarEnTransaccion(p);
      if NegocioBien(antes) && Recibir(antes, p).Ok? {
        RecibirMantiene(antes, p);
      }
    }
  }
}
