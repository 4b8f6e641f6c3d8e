# A verified model of the point-of-sale core

This project models, in Dafny, the parts of the multi-tenant point-of-sale system where money and
stock can go wrong, and proves what they keep.

- **Stock.** `StockBalance` caches what the append-only `InventoryLedgerEntry` says, next to lots,
  reservations, transfers, counts and receipts. Four services write it: inventory, sales, purchasing
  and the catalogue. `Inventario` states every operation as a function from tables to new tables or an
  error; `Invariante` proves that each keeps one inductive invariant; `Corridas` draws the consequences
  for all runs; `Lotes` is the first-expired-first-out consumption. `ServicioInventario`,
  `ServicioCompras` and `ServicioVentas` are the services themselves, as classes whose loops update the
  tables (`Tablas`) in place and either commit or put back what they wrote; each is proved to do what
  its function says. `Identidades`, `Repeticiones` and `Reposiciones` say exactly when a receipt and a
  refund commit, `Guardas`, `Traslados` and `Salidas` exactly when every other request does and all it
  writes, and `Registros` what counts, transfers and receipts put on record. `Promedios` says exactly when
  an average cost can be negative, and `Historial` rebuilds every average from the ledger. `Autoria`
  finds the request behind every entry of the ledger, `Efectos` adds the entries up against what was asked
  for, and `Documentos` and `Mercaderia` against the documents.
- **Sales and refunds.** `Promociones` is the discount engine and its preview, and `Beneficios` what each
  kind of promotion leaves to pay; `Ventas`, `VentasInvariante` and `VentasCorridas` are sales, refunds
  and promotion uses over whole runs, with the stock underneath; `Importes` is what every line and every
  sale come to.
- **Documents.** `Comprobante` builds the fiscal document and `Facturas` says what it says of its sale;
  `Letras` prints the amount in words (SUNAT Catálogo 52, code 1000) and reads it back, `Series` and
  `Turnos` are correlative numbering under a row lock, and `Fiscal` with `FiscalServicio` and
  `FiscalProgreso` is the document state machine driven by a worker that writes from a stale read: what it
  keeps, when it gives up and what it never forgets.
- **Tenants.** `RelayTenant`, `RelayServicio` and `RelayProgreso` are the outbox relay between the two
  databases: leases, crashes, lost answers, redelivery, an idempotent consumer and frozen published rows.
- **Accounts.** `Cuentas` is receivables and payables: instalments, payments and their allocations;
  `Cobranza` says when a payment commits and what the states of accounts mean.
- **The whole shop.** `Caja` and `ServicioCaja` join the parts, each request one transaction: a sale with
  its number, payments and receivable, a receipt with its payable, the fiscal documents that draw numbers
  from the same series as sales (`Numeracion`, `Emision`, `Talonarios`) and the gateway charges that pay
  sales (`Pagos`). `Libros` finds the request behind every sale and receipt on record, with its account;
  `Trazas` carries what runs of stock and of sales keep over to runs of the shop; `Tienda` holds what the
  shop does not promise, with the runs that show it.

`Comun`, `Sumas` and `Dinero` hold results and folds, sums, and rounding to cents. Names follow the
code, in Spanish. Every lemma is written with automatic induction off, so each inductive step is in its
body.

## Assumptions

- Quantities, costs and money are exact reals; amounts are rounded only where the code rounds to two
  decimals, halves away from zero. Column scales and the 20-digit precision of the decimal library are
  not modelled.
- One tenant. Each transaction of the stock, sales, purchasing and account services is one atomic
  step; only the relay, the fiscal worker and the series lock have a step model with interleavings.
- Requests have passed their validators (positive quantities, non-empty lists); functions that can be
  reached with other values answer `Invalido`.
- Ledger keys are structured values rather than strings, which is faithful while client keys contain
  no `:`; so are payment keys, and the printed number of a sale, whose series text has no hyphen. Ids are
  positions in tables, since rows are never deleted.
- Prices in force, active taxes, promotions in force by date, the warehouse of the register, the
  random part of a generated key and the order in which a count's rows come back are parameters of
  the request, and so is what the checks of cashier, company, branch, register and client answer to a sale.
  The answers of the fiscal provider and of the payment gateway are arbitrary.
- `prisma/operaciones/schema.prisma` is not part of this model; defaults and unique indexes are taken
  from the migrations and from how the code uses the columns.

## Where the code and its comments differ

- The discount engine promises a discount never above the gross of the line. Rounding to cents comes
  after the bound, so it can be up to half a cent above: `Promociones.NuncaSuperaLaBase` says exactly when.
- A refund checks each item against earlier refunds, not against the other items of the same request:
  `VentasCorridas.NoSobredevuelveSii` says exactly when more is returned than was sold.
- A receipt that names a variant twice never commits, and neither does a refund that puts two lines
  back into one warehouse and variant, because the ledger key has no line number:
  `Repeticiones.RecepcionarSii`, `Reposiciones.DevolverSii`.
- Where negative stock is allowed, a cheap receipt on stock owed at a higher cost can leave a negative
  average cost, and the ledger's own constraint then refuses every sale of that stock:
  `Promedios.IngresarNegativoSii`, `Promedios.SinVentaBajoCero`.
- A provider's "accepted with observations" is not reachable from the queue in the transition table and
  is dropped, and so is a verdict on a document read in ERROR: `Fiscal.VeredictoRegistradoSii`. A
  document can be retried only once: `Fiscal.ReintentoUnaVez`. So a document answered with observations
  stays in the queue with no event left, for ever, and cannot be sent again:
  `FiscalProgreso.OtraRespuestaOlvida`, `FiscalProgreso.OlvidadoSiempre`.
- A document prints eighteen percent on every taxed item, whatever rate its product was charged at:
  `Facturas.PorcentajeImpresoSii` says exactly when the two agree.
- The consumer of tenant events takes any unique violation for a repeated message. That is safe only
  because slugs cannot clash, which `RelayTenant.SlugNuncaAjeno` proves.
- The comment on the numbering of sales promises no gaps. Fiscal documents draw from the same series, so
  the sales alone have gaps as soon as one does: `Caja.NumerosRepartidos`, `Tienda.HuecoPosible`.
- A gateway charge adds a payment to its sale and leaves the amount paid as it was, so the payments of a
  sale can exceed it, and a receivable opened for the rest stays open: `Caja.PagosDeCadaVenta`,
  `Tienda.PagoDoblePosible`.
- Series are unique by company, type and text, the numbers of sales by branch and text. A second series
  with the text of another cannot sell in a branch that used the other's number: `Numeracion.AtascadaSii`,
  `Tienda.AtascoSigue`.
- A sale already invoiced is meant to get its document back instead of a second one. A failed document
  that is queued again after another was issued stands beside it: `Emision.ReviveSii`,
  `Tienda.DosVigentesPosible`.
- Cancelling a transfer gives goods back at the origin's present average while the ledger records their
  exit cost: `Corridas.CancelarMueveBrecha` is the exact difference.

## Model

| member | source | states |
|---|---|---|
| Corridas.SaldosSiempreCuadran | src/modulos/nucleo/inventario/inventario.service.ts:27-1634 | After any run of the eighteen stock requests, in any order and with any of them refused: in every warehouse and variant the signed ledger quantities add up to `enStock`, `available` is `enStock - reserved`, `reserved` is the unattended part of the open reservations, `enTransito` is what open transfers still owe that warehouse, and a variant that forbids negative stock has none, although sales test `available` and adjustments and transfers test `enStock`. |
| Corridas.CorrerMantiene | src/modulos/nucleo/inventario/inventario.service.ts:27-1634 | The inductive invariant behind it (stock, reservations, transit, lots, counts) survives any run from any state that satisfies it. |
| Corridas.LotesSiempreCuadran | src/modulos/nucleo/compras/compras.service.ts:375-406 | After any run no lot is negative, and what was ever received into a lot equals what remains in it plus what the sale entries carrying its id took out. |
| Corridas.TransferenciasSiempreBien | src/modulos/nucleo/inventario/inventario.service.ts:1499-1514 | After any run no transfer article has received more than was shipped, and a transfer is RECIBIDA exactly when every article arrived in full. |
| Corridas.ValorizadoExacto | src/modulos/nucleo/inventario/inventario.service.ts:220-240 | Where negative stock is forbidden, stock times average cost equals the recorded ledger cost after every run without transfer cancellations, and after any run differs from it by exactly what the cancellations of the run opened. |
| Historial.SaldoEsHistoria | src/modulos/nucleo/inventario/inventario.service.ts:209-283 | After any run, for every cell, whether or not its stock may go below zero: the cached stock and average are what a replay of the append-only ledger computes, and stock times average is the cost the ledger records plus what leaked, entry by entry. |
| Historial.SoloDosFugas | src/modulos/nucleo/inventario/inventario.service.ts:209-283 | After any run an entry leaks value in two ways only: it brings stock in at a cost of its own and leaves the cell not above zero, or it undoes a transfer. Everything that leaves, comes back or is counted is recorded at the average of the moment. |
| Historial.FugasExactas | src/modulos/nucleo/compras/compras.service.ts:336-372 | For any ledger whose entries are recorded so, the value the replay carries is the recorded cost plus the sum of the leaks. |
| Trazas.VentasSobreStock | src/modulos/nucleo/ventas/ventas.service.ts:228-401 | Every run of sales, refunds, promotions and stock requests leaves the stock that a run of stock requests leaves: a sale and a refund move it as one such request each would. |
| Trazas.ReponerEsReingresar | src/modulos/nucleo/ventas/ventas.service.ts:608-641 | The loop of a refund over its items, some scrapped and some not tracked, is the stock loop over the items that go back. |
| Trazas.TiendaSobreVentas | src/modulos/nucleo/ventas/ventas.service.ts:228-401 | Every run of the whole shop leaves the sales, refunds, promotions and stock that a run of sales leaves. |
| Trazas.SaldosDeTienda | src/modulos/nucleo/inventario/inventario.service.ts:209-283 | After any run of the whole shop: ledger sums, available, set aside, on its way and the bound at zero, in every cell. |
| Trazas.ValorDeTienda | src/modulos/nucleo/inventario/inventario.service.ts:220-240 | After any run of the whole shop the average of every cell is the replay of its ledger and its value gap the sum of the leaks; where negative stock is forbidden the average is not negative and only cancelled transfers leak. |
| Trazas.VentasDeTienda | src/modulos/nucleo/ventas/ventas.service.ts:323-343 | After any run of the whole shop promotions count exactly the sales that used them, the parts of every line add up to its total, and every lot holds what was received into it less what was sold from it. |
| Corridas.CorrerBrecha | src/modulos/nucleo/compras/compras.service.ts:336-372 | From any valid state, the gap between carried and recorded value at the end of a run is the gap at its start plus the jumps of its cancellations; no other operation contributes. |
| Corridas.CancelarMueveBrecha | src/modulos/nucleo/inventario/inventario.service.ts:1556-1598 | A cancellation moves the gap of each article's origin by the shipped quantity times today's average less the same quantity times the cost its exit was recorded at. |
| Corridas.TransferenciasConservan | src/modulos/nucleo/inventario/inventario.service.ts:1206-1634 | Over any series of shipments, partial receptions, cancellations and retries, the sum over all warehouses of `enStock + enTransito` of each variant does not change. |
| Corridas.CrearConserva | src/modulos/nucleo/inventario/inventario.service.ts:1206-1373 | Shipping conserves that sum over any list of warehouses holding both ends of the transfer. |
| Corridas.RecibirConserva | src/modulos/nucleo/inventario/inventario.service.ts:1381-1518 | A reception, however partial, conserves `enStock + enTransito` over any list of warehouses: it moves goods within one cell. |
| Corridas.CancelarConserva | src/modulos/nucleo/inventario/inventario.service.ts:1524-1634 | A cancellation conserves the sum, which needs the clamp on `enTransito` never to cut anything off. |
| Invariante.InicialValido | src/modulos/nucleo/inventario/inventario.service.ts:27-107 | Empty tables satisfy the invariant. |
| Invariante.RegistrarStockInicialMantiene | src/modulos/nucleo/inventario/inventario.service.ts:27-107 | An opening keeps the invariant and every value gap; a repeated key and a cell that already has a row change nothing. |
| Invariante.CargarStockInicialMantiene | src/modulos/nucleo/catalogo/catalogo.service.ts:1533-1568 | So does the opening the catalogue posts, the fourth writer of balances. |
| Invariante.AjustarStockMantiene | src/modulos/nucleo/inventario/inventario.service.ts:113-258 | An adjustment, with or without a cost of its own, keeps the invariant and the value gap of every cell that forbids negative stock. |
| Invariante.DefinirNivelStockMantiene | src/modulos/nucleo/inventario/inventario.service.ts:491-543 | Setting minimum and maximum levels, which may create a balance row, leaves every quantity and value equation standing. |
| Invariante.CrearReservaMantiene | src/modulos/nucleo/inventario/inventario.service.ts:737-796 | Setting stock aside keeps `available + reserved` equal to the ledger and `reserved` equal to the open reservations. |
| Invariante.LiberarReservaMantiene | src/modulos/nucleo/inventario/inventario.service.ts:799-858 | Releasing a reservation keeps the invariant. |
| Invariante.LiberarReservaSinRecorte | src/modulos/nucleo/inventario/inventario.service.ts:836-839 | The clamp of `reserved` to zero never fires: exactly the unattended part leaves `reserved` and reaches `available`. |
| Invariante.CrearConteoMantiene | src/modulos/nucleo/inventario/inventario.service.ts:892-937 | Opening a count keeps the invariant, by which a count names each variant once. |
| Invariante.RegistrarConteoMantiene | src/modulos/nucleo/inventario/inventario.service.ts:940-995 | Recording counted quantities, also of variants the count did not expect, keeps the items of a count distinct and known. |
| Invariante.ContarTodosIguala | src/modulos/nucleo/inventario/inventario.service.ts:1002-1102 | Posting a count leaves in every counted cell exactly what was counted and does not touch cells the count does not name. |
| Invariante.ContabilizarConteoMantiene | src/modulos/nucleo/inventario/inventario.service.ts:1002-1102 | Posting a count keeps the invariant and every value gap. |
| Invariante.CancelarConteoMantiene | src/modulos/nucleo/inventario/inventario.service.ts:1105-1123 | Cancelling a count keeps the invariant. |
| Invariante.ConsolidarBien | src/modulos/nucleo/inventario/inventario.service.ts:1246-1251 | Consolidating a request names each variant once and loses no quantity of any. |
| Invariante.CrearTransferenciaCelda | src/modulos/nucleo/inventario/inventario.service.ts:1253-1359 | In every cell: shipping takes each variant's requested total out of the origin and puts it on the way to the destination, changes no reservation, opens no value gap, and transit still equals the open transfers. |
| Invariante.CrearTransferenciaMantiene | src/modulos/nucleo/inventario/inventario.service.ts:1206-1373 | Creating a transfer keeps the invariant; a retry with a used key changes nothing. |
| Invariante.EnCaminoAcotado | src/modulos/nucleo/inventario/inventario.service.ts:1611-1623 | What an open transfer still owes is part of `enTransito`, so the clamp to zero on cancelling never fires. |
| Invariante.RecibirTransferenciaCelda | src/modulos/nucleo/inventario/inventario.service.ts:1430-1514 | In every cell: a reception moves exactly what the request names from on the way to in stock at the destination, at the recorded exit cost and with no value gap, and adds it to what each article has received. |
| Invariante.RecibirTransferenciaMantiene | src/modulos/nucleo/inventario/inventario.service.ts:1381-1518 | A reception keeps the invariant. |
| Invariante.CancelarTransferenciaCelda | src/modulos/nucleo/inventario/inventario.service.ts:1556-1623 | In every cell: a cancellation returns the shipped quantities to the origin, takes them off the way, and opens a value gap only in the origin. |
| Invariante.CancelarTransferenciaMantiene | src/modulos/nucleo/inventario/inventario.service.ts:1524-1634 | Cancelling keeps the invariant. |
| Invariante.RecepcionarMantiene | src/modulos/nucleo/compras/compras.service.ts:109-223 | A receipt keeps ledger, balances, lots and value gaps in agreement, line by line, services included. |
| Invariante.VenderMantiene | src/modulos/nucleo/ventas/ventas.service.ts:1118-1352 | The stock part of a sale, with or without lots and with or without a balance row, keeps the invariant and every value gap. |
| Invariante.ReingresarStockMantiene | src/modulos/nucleo/ventas/ventas.service.ts:733-787 | Putting refunded goods back keeps the invariant and every value gap. |
| Movimientos.PonderadoConserva | src/modulos/nucleo/inventario/inventario.service.ts:220-230 | The weighted average is the cost at which value held plus value received is the value of the new stock. |
| Movimientos.IngresarFuga | src/modulos/nucleo/compras/compras.service.ts:336-372 | A receipt onto a row leaves its value gap alone when the resulting stock is positive; when it is not, the cost is simply replaced and the gap moves by the old stock times the difference of costs. |
| Existencias.AsientosVentaSuman | src/modulos/nucleo/ventas/ventas.service.ts:1303-1352 | However a sale line is split over lots and an uncovered rest, its entries add up to minus its quantity and minus its cost, and each lot is charged exactly what was consumed from it. |
| Existencias.AsientosVentaForma | src/modulos/nucleo/ventas/ventas.service.ts:1303-1352 | The entries of a line stay in its cell and name only lots it consumed from. |
| Existencias.RegistrarLineaEscribe | src/modulos/nucleo/ventas/ventas.service.ts:1118-1247 | Both branches of a sale line, with and without a balance row, write the same three things: stock and available down by the quantity, entries with new keys, lots charged; and without permission only when `available` covers it. |
| Existencias.RegistrarLineaLotes | src/modulos/nucleo/ventas/ventas.service.ts:1230-1301 | A sale line keeps received = remaining + sold for every lot. |
| Existencias.RegistrarLoteCuadra | src/modulos/nucleo/compras/compras.service.ts:375-406 | A receipt line keeps the same equation, whether it opens a lot or adds to one, or names none. |
| Lotes.ConsultaExacta | src/modulos/nucleo/ventas/ventas.service.ts:1264-1276 | The lot query yields exactly the stocked lots of the cell, once each, soonest expiry first and undated last, ties by age. |
| Lotes.FEFOEsOptimo | src/modulos/nucleo/ventas/ventas.service.ts:1256-1301 | For every date, FEFO takes from lots expiring by that date at least as much as any split of the same quantity that sells nothing expired and overdraws no lot. |
| Lotes.FEFOEsReparto | src/modulos/nucleo/ventas/ventas.service.ts:1256-1301 | FEFO is itself such a split, so the bound is reached. |
| Lotes.FEFOConsume | src/modulos/nucleo/ventas/ventas.service.ts:1277-1300 | Nothing is taken from an expired lot, no lot is visited twice, and in total the smaller of the quantity sold and the sellable stock is taken; the whole quantity when lots exist and negative stock is not allowed. |
| Lotes.FEFONoSobregira | src/modulos/nucleo/ventas/ventas.service.ts:1277-1300 | No lot goes below zero and lots of other cells are untouched. |
| Repeticiones.RecepcionSinRepetir | src/modulos/nucleo/compras/compras.service.ts:336-372 | A receipt with valid lines and a new id enters the stock if and only if it names no variant twice: the ledger key has no line number. |
| Repeticiones.SinRepetirExacto | src/modulos/nucleo/compras/compras.service.ts:336-372 | The line-by-line form of that condition is exactly: no two lines name one variant. |
| Repeticiones.RecepcionarNueva | src/modulos/nucleo/compras/compras.service.ts:109-223 | A receipt with a new key and a new id commits if and only if it passes every other guard of the service, has no cost below zero and names no variant twice. |
| Repeticiones.RecepcionarSii | src/modulos/nucleo/compras/compras.service.ts:109-223 | In every reachable state that is the whole condition for a receipt with a new key: its id is always new to the ledger. |
| Identidades.RecepcionesConocidas | src/modulos/nucleo/compras/compras.service.ts:336-372 | In every reachable state every receipt named by a ledger key is on record. |
| Repeticiones.CostoNegativoNoEntra | prisma/operaciones/migraciones/20260729120000_integridad_ledger_auditoria_outbox/migration.sql:4-10 | A receipt line at a negative cost is refused by the ledger's own constraint. |
| Reposiciones.ReponerSii | src/modulos/nucleo/ventas/ventas.service.ts:610-673 | The loop that puts refunded stock back, with its scrapped, untracked and default-warehouse items, succeeds for a new refund if and only if each item can go back and no two go back into one warehouse and variant. |
| Reposiciones.ReingresoRepetido | src/modulos/nucleo/ventas/ventas.service.ts:733-787 | Two items that go back into one warehouse and variant never commit, whatever the ledger holds: its key has no line. |
| Reposiciones.DevolverSii | src/modulos/nucleo/ventas/ventas.service.ts:486-730 | In every reachable state a refund with a new key commits if and only if its sale is not voided, its number is new, each item fits what earlier refunds left and can go back, and no two go back into one cell. |
| Reposiciones.DevolucionesConocidas | src/modulos/nucleo/ventas/ventas.service.ts:733-787 | In every reachable state every refund named by a ledger key is on record, so the id of the next one is new. |
| Promedios.PromedioNuncaNegativo | src/modulos/nucleo/inventario/inventario.service.ts:220-230 | After any run the average cost of a cell that forbids negative stock is not below zero. |
| Promedios.PonderadoNegativoSii | src/modulos/nucleo/inventario/inventario.service.ts:220-230 | The weighted average comes out below zero if and only if the movement brings the stock above zero with the total value below it. |
| Promedios.IngresarNegativoSii | src/modulos/nucleo/compras/compras.service.ts:336-349 | The exact guard for a receipt: the row exists, the receipt brings its stock above zero, and what it is worth does not cover what the row was worth below zero. |
| Promedios.AjustarNegativoSii | src/modulos/nucleo/inventario/inventario.service.ts:209-240 | The exact guard for an adjustment: only an entry with a cost of its own, on a row below zero, that brings the stock above zero without covering what the row was worth. |
| Promedios.RecibirNegativoSii | src/modulos/nucleo/inventario/inventario.service.ts:1450-1475 | The exact guard for an article of a transfer that arrives. |
| Promedios.SinVentaBajoCero | src/modulos/nucleo/ventas/ventas.service.ts:1118-1247 | While the average of a cell is below zero no sale leaves it, with or without lots: the ledger takes no entry at a negative cost. |
| Promedios.PromedioNegativoPosible | src/modulos/nucleo/compras/compras.service.ts:336-372 | A concrete run that gets there where negative stock is allowed: five in at ten, ten sold, six in at one leave an average of -44 and every sale refused. |
| Promociones.MejorDescuento | src/modulos/nucleo/promociones/motor-promociones.ts:125-144 | The loop over promotions returns the best candidate as the recursive definition does. |
| Promociones.MejorEsMaximo | src/modulos/nucleo/promociones/motor-promociones.ts:125-144 | The chosen promotion offers the most money of all and, among equals, the highest priority; nothing is chosen only when nothing is offered. |
| Promociones.OfertaAcotada | src/modulos/nucleo/promociones/motor-promociones.ts:62-118 | Every discount offered is positive, in whole cents, carries its promotion's id and is at most the line's gross rounded to cents. |
| Promociones.DescuentosDeLinea | src/modulos/nucleo/promociones/motor-promociones.ts:152-184 | The filter, the two partitions and the accumulating loop give the total and the details of the specification. |
| Promociones.ElegiblesBastan | src/modulos/nucleo/promociones/motor-promociones.ts:157-159 | Filtering by minimum sale amount first, as the code does, changes neither the offers nor the best one. |
| Promociones.TotalSinOrden | src/modulos/nucleo/promociones/motor-promociones.ts:152-184 | The discount of a line does not depend on the order promotions come in. |
| Promociones.TotalCreceConPromocion | src/modulos/nucleo/promociones/motor-promociones.ts:152-184 | Adding a promotion anywhere in the list never lowers the discount. |
| Promociones.BastanLasReportadas | src/modulos/nucleo/promociones/motor-promociones.ts:152-184 | Cutting the promotions to any selection that keeps the ids a line reported gives that line the same discount. |
| Promociones.CobroIgualaVistaPrevia | src/modulos/nucleo/promociones/promociones.service.ts:311-346 | At equal prices, the charge, which loads only the confirmed ids and in any order, discounts every line exactly as the preview did. |
| Promociones.Aplicables | src/modulos/nucleo/promociones/promociones.service.ts:277-348 | The preview's loop returns each line's discount and the set of ids used anywhere. |
| Promociones.TotalAcotado | src/modulos/nucleo/promociones/motor-promociones.ts:178-184 | A line's discount is in whole cents, never negative, and never above its gross rounded to cents. |
| Promociones.NuncaSuperaLaBase | src/modulos/nucleo/promociones/motor-promociones.ts:178-184 | The promise that a discount never exceeds the gross holds of a line, whatever the promotions, if and only if rounding its gross to cents does not raise it. |
| Promociones.SuperaLaBase | src/modulos/nucleo/promociones/motor-promociones.ts:178-184 | A concrete line where it fails: half a cent given away is discounted one cent. |
| VentasInvariante.LineaSuma | src/modulos/nucleo/ventas/ventas.service.ts:1013-1042 | With included or added tax, fixed taxes and discounts, unit value times quantity plus taxes is the line total, which is gross less discount plus whatever was not included. |
| VentasCorridas.ImportesSiempreCuadran | src/modulos/nucleo/ventas/ventas.service.ts:1013-1042 | After any run the parts of every line of every sale add up to its total. |
| VentasInvariante.CrearUsa | src/modulos/nucleo/promociones/promociones.service.ts:398-399 | A sale uses only promotions that were confirmed, are in force and had a use left. |
| VentasInvariante.CrearMantiene | src/modulos/nucleo/ventas/ventas.service.ts:228-401 | A sale, or its retry, keeps the joint invariant of stock, sales, refunds and promotion uses. |
| VentasInvariante.DevolverMantiene | src/modulos/nucleo/ventas/ventas.service.ts:486-730 | So does a refund, or its retry. |
| VentasCorridas.UsosSiempreExactos | src/modulos/nucleo/ventas/ventas.service.ts:332-343 | After any run of sales, refunds, promotion edits and stock requests, each promotion's `usoActual` is the number of sales that used it and are not DEVUELTA. |
| VentasCorridas.UsosDentroDelTope | src/modulos/nucleo/promociones/promociones.service.ts:398-399 | As long as no edit lowers a limit, no promotion is ever used more often than `usoMaximo`. |
| VentasCorridas.EstadoSiempreExacto | src/modulos/nucleo/ventas/ventas.service.ts:675-707 | After any run a sale is DEVUELTA exactly when every line came back in full, and DEVUELTA_PARCIALMENTE exactly when something but not everything did. |
| VentasCorridas.NuncaSobredevuelve | src/modulos/nucleo/ventas/ventas.service.ts:549-591 | Over requests that name each line once, no sequence of refunds returns more of a line than was sold. |
| VentasCorridas.NoSobredevuelveSii | src/modulos/nucleo/ventas/ventas.service.ts:549-591 | In general a refund stays within what was sold of a line if and only if the request asks in total for no more than was pending: items are checked one by one against earlier refunds only. |
| VentasCorridas.SobredevolucionPosible | src/modulos/nucleo/ventas/ventas.service.ts:549-591 | A concrete run, and a request after it that names a line twice, is accepted and returns twice what was sold. |
| VentasCorridas.DevolverSuma | src/modulos/nucleo/ventas/ventas.service.ts:593-673 | A refund adds to each line of its sale exactly what the request names of it and nothing to other sales. |
| VentasCorridas.DevolucionesProporcionales | src/modulos/nucleo/ventas/ventas.service.ts:566-591 | After any run the money returned for a line, and the tax in it, differ from the exact proportional parts of its total and of its tax by at most half a cent for each time it was refunded. |
| VentasCorridas.ReembolsosCuadran | src/modulos/nucleo/ventas/ventas.service.ts:593-608 | After any run every refund's subtotal plus tax is its total, and its total and its tax are the sums over its items. |
| VentasCorridas.LineaEnteraExacta | src/modulos/nucleo/ventas/ventas.service.ts:566-591 | Refunding a whole line at once returns exactly its total, and exactly its tax, if and only if those are whole cents. |
| Ventas.ContarUsos | src/modulos/nucleo/ventas/ventas.service.ts:332-343 | Counting uses adds one to each promotion used, once however many lines used it, and touches no other. |
| Ventas.LiberarUsos | src/modulos/nucleo/ventas/ventas.service.ts:709-726 | Giving uses back takes one from each promotion used that has any, and touches no other. |
| Comprobante.Construir | src/modulos/nucleo/fiscal/constructor-comprobante.ts:109-205 | One pass with eight running totals builds the items and totals of the declarative definition and the legend of the accumulated total. |
| Comprobante.DiferenciaExacta | src/modulos/nucleo/fiscal/constructor-comprobante.ts:133-193 | The total of any document differs from subtotal plus taxes by exactly the rounding of its bases, less the taxes of its free lines. |
| Comprobante.TotalCasiExacto | src/modulos/nucleo/fiscal/constructor-comprobante.ts:133-193 | Without free lines, by at most half a cent a line. |
| Comprobante.GratuitaDescuadra | src/modulos/nucleo/fiscal/constructor-comprobante.ts:133-193 | A concrete free line that breaks the identity by its whole tax, so the condition is needed. |
| Comprobante.VentaCuadra | src/modulos/nucleo/ventas/ventas.service.ts:1013-1042 | Lines as a sale computes them satisfy the premise of those lemmas. |
| Comprobante.FacturaCasiExacta | src/modulos/nucleo/fiscal/fiscal.service.ts:357-406 | The document of any sale of any run differs from its parts by exactly the rounding of its bases less the taxes of its free lines and, without free lines, by at most half a cent a line. |
| Comprobante.NotaReconstruye | src/modulos/nucleo/fiscal/fiscal.service.ts:192-216 | Rebuilding a document from its own items, as a credit note does, gives the same items and the same nine totals. |
| Comprobante.LeyendaDiceElTotal | src/modulos/nucleo/fiscal/constructor-comprobante.ts:195-205 | Below one thousand million, the legend on a document reads back as its total to the cent. |
| Letras.LeyendaSeLee | src/modulos/nucleo/fiscal/numero-a-letras.ts:104-115 | A parser recovers the amount from the legend of any non-negative amount below one thousand million, whatever the currency. |
| Letras.LeyendasDistintas | src/modulos/nucleo/fiscal/numero-a-letras.ts:104-115 | So distinct such amounts print as distinct legends. |
| Letras.LectorLee | src/modulos/nucleo/fiscal/numero-a-letras.ts:66-115 | This holds of every reader that knows the words, not of one dictionary only. |
| Letras.EnteroLee | src/modulos/nucleo/fiscal/numero-a-letras.ts:81-102 | The words of every integer below one thousand million read as that integer. |
| Letras.MilMillonesSeConfunden | src/modulos/nucleo/fiscal/numero-a-letras.ts:81-102 | The bound is sharp: all whole multiples of one thousand million print alike. |
| Series.CorrelativosSinHuecos | src/modulos/nucleo/ventas/ventas.service.ts:1092-1116 | Under every interleaving of lock, read, increment, insert, commit and abort, the numbers committed in a series are exactly the interval from its first number up to `nextNumber`, each once and in commit order. |
| Series.LockExclusivo | src/modulos/nucleo/fiscal/fiscal.service.ts:533-567 | Two transactions never hold the row lock of one series at once. |
| Series.ClaveTomaUnNumero | src/modulos/nucleo/ventas/ventas.service.ts:235-248 | However often and however concurrently a sale key is retried, it takes at most one number. |
| Series.DarMantiene | src/modulos/nucleo/ventas/ventas.service.ts:1092-1116 | Each single step keeps the invariant those follow from. |
| Numeracion.UnTitular | src/modulos/nucleo/ventas/ventas.service.ts:1092-1116 | Sales and documents that take numbers of a series in turns: each number given has exactly one holder. |
| Numeracion.SinHuecosSii | src/modulos/nucleo/ventas/ventas.service.ts:1092-1116 | Its sales hold every number given, in order, if and only if no document took one. |
| Numeracion.AtascadaSii | prisma/operaciones/migraciones/20260724211019_init_operaciones/migration.sql:1987 | The unique index on branch and number refuses a sale if and only if another series of the same text already gave the branch that number. |
| Numeracion.OtraSerieDistinta | prisma/operaciones/migraciones/20260724211019_init_operaciones/migration.sql:2131 | That other series is of another type or of another company. |
| Numeracion.DocumentoLibre | prisma/operaciones/migraciones/20260724211019_init_operaciones/migration.sql:2143 | The unique index of documents refuses none that is not a credit note and whose series is of its company. |
| Emision.EmitirSii | src/modulos/nucleo/fiscal/fiscal.service.ts:106-160 | A sale without a standing document of the type gets one if and only if the client suits the type and the series is active, of that type and of the company of the sale. |
| Emision.EmitirUnoVigente | src/modulos/nucleo/fiscal/fiscal.service.ts:115-128 | Issuing never leaves two documents of a type standing for a sale. |
| Emision.ReviveSii | src/modulos/nucleo/fiscal/fiscal.service.ts:291-312 | A document that changes state leaves two standing if and only if it revives one beside another of its sale and type. |
| Pagos.PagosSii | src/modulos/nucleo/pagos/pagos.service.ts:166-202 | All payments of a sale add up to what it was paid if and only if its gateway payments add up to nothing. |
| Pagos.ConciliarMantiene | src/modulos/nucleo/pagos/pagos.service.ts:166-202 | A captured charge, however often it is notified, pays at most once, its own amount, to the sale it names. |
| RelayTenant.PublicadoEstaProyectado | src/modulos/administracion/administracion-inquilino/worker/relay-tenant-outbox.ts:81-142 | In any interleaving of any number of workers with crashes, failures, lost answers and expired leases: each registered tenant has exactly one event, its own; a published event has its PROCESADO inbox row and its tenant, control, configuration and onboarding rows; and no tenant is projected that was not delivered. |
| RelayTenant.GestionEsProyeccion | src/modulos/administracion/administracion-inquilino/administracion-inquilino.service.ts:37-116 | However often events were redelivered, the management tenants are those that one delivery of each would leave. |
| RelayTenant.ReentregaIdempotente | src/modulos/administracion/administracion-inquilino/administracion-inquilino.service.ts:26-116 | Delivering an event again changes nothing in management. |
| RelayTenant.SlugNuncaAjeno | src/modulos/administracion/administracion-inquilino/administracion-inquilino.service.ts:26-116 | The unique violation the consumer takes for a duplicate message is never one on the slug: slugs mirror codes, which are unique. |
| RelayTenant.PublicadosCongelados | prisma/operaciones/migraciones/20260729120000_integridad_ledger_auditoria_outbox/migration.sql:46-75 | No step changes a published row or the payload of any row, or takes back a delivery. |
| RelayTenant.NuncaAtascado | src/modulos/administracion/administracion-inquilino/worker/relay-tenant-outbox.ts:81-142 | From every reachable state an idle worker can publish any unpublished event once its wait and its lease are over. |
| RelayTenant.AltaMantiene | src/modulos/nucleo/onboarding/onboarding.service.ts:131-148 | Registering a tenant writes it and its one event together or, for a taken code, neither. |
| RelayTenant.DarMantiene | src/modulos/administracion/administracion-inquilino/worker/relay-tenant-outbox.ts:66-142 | Every step of the protocol keeps its invariant. |
| RelayTenant.ReclamarFilas | src/modulos/administracion/administracion-inquilino/worker/relay-tenant-outbox.ts:81-101 | A claim leases exactly the rows it names, with one more attempt on each, and touches no other. |
| RelayServicio.RelayTenantOutbox.Reclamar | src/modulos/administracion/administracion-inquilino/worker/relay-tenant-outbox.ts:81-101 | Claiming in place is the protocol's claim step: a lease and one more attempt on each row. |
| RelayServicio.RelayTenantOutbox.ProcesarTenantCreado | src/modulos/administracion/administracion-inquilino/administracion-inquilino.service.ts:26-116 | The consumer in place is the protocol's delivery. |
| RelayServicio.RelayTenantOutbox.MarcarPublicado | src/modulos/administracion/administracion-inquilino/worker/relay-tenant-outbox.ts:119-126 | Publishing is the protocol's step; a frozen row aborts the tick. |
| RelayServicio.RelayTenantOutbox.ReprogramarPrimero | src/modulos/administracion/administracion-inquilino/worker/relay-tenant-outbox.ts:128-142 | Rescheduling is the protocol's step, with its bounded exponential wait. |
| RelayServicio.RelayTenantOutbox.Procesar | src/modulos/administracion/administracion-inquilino/worker/relay-tenant-outbox.ts:103-117 | One event is a delivery followed by a publication, by a rescheduling when the delivery or the publication failed, or by the end of the tick when the rescheduling failed too. |
| RelayServicio.RelayTenantOutbox.Tick | src/modulos/administracion/administracion-inquilino/worker/relay-tenant-outbox.ts:66-79 | A whole tick, of any number of events and also of none, is a run of the protocol, so it keeps its invariant; a tick that finds another running does nothing. |
| Fiscal.VeredictoRegistradoSii | src/modulos/nucleo/fiscal/fiscal.service.ts:588-627 | Exactly which verdicts are recorded: those the table allows from EN_COLA; a document read in ERROR only goes back to the queue or stays, and observations are dropped. |
| Fiscal.EscrituraSeguraSii | src/modulos/nucleo/fiscal/fiscal.service.ts:588-627 | A write computed from a stale read is legal, whatever the provider answered, if and only if the stored state is still EN_COLA when it was read so or, for a document read in ERROR, is one that may both stay or fail and go to the queue: ERROR, EN_COLA or BORRADOR. |
| Fiscal.CambiosLegales | src/modulos/nucleo/fiscal/maquina-estados.ts:13-47 | With one worker, in every interleaving of its read, the answer and its write with retries, crashes and failures, every change of a document is a self-loop or an edge of the table from the state then stored; final documents never change. |
| Fiscal.FinalesFijos | src/modulos/nucleo/fiscal/maquina-estados.ts:13-47 | No run of the protocol with one worker, from any state that satisfies its invariant, changes an accepted or annulled document. |
| Fiscal.IntentosAcotados | src/modulos/nucleo/fiscal/worker/procesador-fiscal.ts:101-141 | With one worker and no crash, no event is claimed more than five times. |
| Fiscal.ReintentoUnaVez | src/modulos/nucleo/fiscal/fiscal.service.ts:292-312 | After one successful retry of a document every later one is refused, whatever happens in between: its event key is used up. |
| Fiscal.DosWorkersPisanElVeredicto | src/modulos/nucleo/fiscal/fiscal.service.ts:248-289 | With two workers it fails: a concrete run in which the slower one, its lease expired, writes ERROR over ACEPTADO. |
| Fiscal.ReclamarFilas | src/modulos/nucleo/fiscal/worker/procesador-fiscal.ts:83-99 | A claim leases exactly the rows it names, with one more attempt on each, and touches no other. |
| FiscalServicio.ProcesadorFiscal.Reintentar | src/modulos/nucleo/fiscal/fiscal.service.ts:292-312 | Retrying in place is the specification's retry, or nothing. |
| FiscalServicio.ProcesadorFiscal.RegistrarResultado | src/modulos/nucleo/fiscal/fiscal.service.ts:588-627 | The write depends on the state that was read and on nothing stored meanwhile. |
| FiscalServicio.ProcesadorFiscal.ProcesarPendiente | src/modulos/nucleo/fiscal/fiscal.service.ts:248-289 | Processing one document is the protocol's read, answer and write steps. |
| FiscalServicio.ProcesadorFiscal.CerrarPrimero | src/modulos/nucleo/fiscal/worker/procesador-fiscal.ts:122-141 | Publishing or rescheduling is the protocol's closing step. |
| FiscalServicio.ProcesadorFiscal.Reclamar | src/modulos/nucleo/fiscal/worker/procesador-fiscal.ts:83-99 | Claiming in place is the protocol's claim step. |
| FiscalServicio.ProcesadorFiscal.Tick | src/modulos/nucleo/fiscal/worker/procesador-fiscal.ts:67-81 | A whole tick, of any number of events and also of none, is a run of the protocol, so with one worker it keeps the invariants behind legality and the bound on attempts, and changes no final document; a tick that finds another running does nothing. |
| FiscalServicio.TickLegal | src/modulos/nucleo/fiscal/worker/procesador-fiscal.ts:67-141 | Each step of such a tick changes each document at most along an edge of the table. |
| Cuentas.CuentasSiempreCuadran | src/modulos/nucleo/clientes/clientes.service.ts:186-292 | After any run of credit sales, receipts on credit and payments: what is gone from an account is the sum of the allocations to its instalments, its pending amount is the sum of theirs, each payment equals its allocations, and no instalment opened for a non-negative amount goes below zero. |
| Cuentas.RegistrarPagoMantiene | src/modulos/nucleo/compras/compras.service.ts:226-302 | A payment keeps all of that, although during its loop account balances are out of date; a retry changes nothing. |
| Cuentas.AbrirCuentaMantiene | src/modulos/nucleo/ventas/ventas.service.ts:404-447 | Opening an account with its instalment keeps it. |
| Cuentas.CuotaRepetidaRechazada | prisma/operaciones/migraciones/20260724211019_init_operaciones/migration.sql:2254 | A new payment that names an instalment twice is refused whole. |
| Cuentas.PagoConservaCuentas | src/modulos/nucleo/clientes/clientes.service.ts:186-266 | A payment opens no account and changes what none was opened for. |
| Cuentas.RecalcularTodasCuadra | src/modulos/nucleo/compras/compras.service.ts:446-467 | Recomputing brings exactly the touched accounts up to date and changes no other row. |
| Cuentas.Cartera.CrearCuenta | src/modulos/nucleo/compras/compras.service.ts:408-444 | Opening in place is the specification's opening. |
| Cuentas.Cartera.RecalcularCuenta | src/modulos/nucleo/clientes/clientes.service.ts:268-292 | The loop over instalments leaves in the account the sum of what they owe, and the state that follows from it. |
| Cuentas.Cartera.Cobrar | src/modulos/nucleo/clientes/clientes.service.ts:186-266 | The payment loop commits the whole specification or leaves the four tables as they were, and keeps their invariant. |
| Caja.CorrerMantiene | src/modulos/nucleo/ventas/ventas.service.ts:228-447 | Over any run of whole sales and receipts, refunds, stock requests, account payments, changes of series, fiscal documents and gateway charges, one invariant joins stock, sales, numbers, payments and accounts. |
| Caja.NumerosRepartidos | src/modulos/nucleo/fiscal/fiscal.service.ts:533-567 | After any such run each number a series has given is held by exactly one sale or one document; its sales hold all of them, in order and without a gap, if and only if no document took one. |
| Caja.PagosDeCadaVenta | src/modulos/nucleo/pagos/pagos.service.ts:146-202 | After any such run the payments a sale made itself add up to what it was paid; all its payments do if and only if its gateway payments add up to nothing; a charge has paid at most once, its amount, to the sale it names. |
| Tienda.HuecoPosible | src/modulos/nucleo/ventas/ventas.service.ts:1088-1091 | A concrete run with a gap: a sale, its receipt on the same series and another sale leave the sales with 1 and 3. |
| Tienda.PagoDoblePosible | src/modulos/nucleo/pagos/pagos.service.ts:146-155 | A concrete run where the payments of a sale are twice what it was paid. |
| Tienda.UnDocumentoVigente | src/modulos/nucleo/fiscal/fiscal.service.ts:115-128 | Over any run that never revives a document beside another, at most one invoice and one receipt stand for each sale. |
| Tienda.DosVigentesPosible | src/modulos/nucleo/fiscal/fiscal.service.ts:291-312 | A concrete run that leaves two: the receipt fails, another is issued and the first is queued again. |
| Tienda.AtascoSigue | prisma/operaciones/migraciones/20260724211019_init_operaciones/migration.sql:1987 | Once stuck in a branch, a series stays stuck there on the same number until a sale in another branch or a document takes it; until then every sale of it in the branch changes nothing. |
| Tienda.AtascoPosible | prisma/operaciones/migraciones/20260724211019_init_operaciones/migration.sql:2131 | A concrete run that gets there: a series of invoices with the text of the series of receipts never sells in a branch that sold on the other. |
| Caja.CadaVentaSuCuenta | src/modulos/nucleo/ventas/ventas.service.ts:377-447 | After any such run a sale has a receivable if and only if it names a client and was not paid in full, then exactly one, opened for exactly the rest. |
| Caja.CadaCompraSuCuenta | src/modulos/nucleo/compras/compras.service.ts:205-223 | After any such run a receipt has a payable if and only if it was on credit, then exactly one, opened for its total with taxes. |
| Caja.CrearVentaMantiene | src/modulos/nucleo/ventas/ventas.service.ts:228-401 | A whole sale, or its retry, keeps that invariant. |
| Caja.RecibirMantiene | src/modulos/nucleo/compras/compras.service.ts:109-223 | A whole receipt, or its retry, keeps it. |
| ServicioCaja.CajaService.Crear | src/modulos/nucleo/ventas/ventas.service.ts:284-401 | The whole sale in place: number under its unique index, lines, stock, sale, promotion uses, payments and account are all written, or none is and the number is not taken; a retry takes no number. |
| ServicioCaja.CajaService.ReservarCorrelativo | src/modulos/nucleo/ventas/ventas.service.ts:1092-1116 | An active series gives its next number and moves on by one; any other gives none. |
| ServicioCaja.CajaService.GenerarCuentaPorCobrar | src/modulos/nucleo/ventas/ventas.service.ts:404-447 | An account with its instalment for the unpaid rest, and nothing when there is none. |
| ServicioCaja.CajaService.Recepcionar | src/modulos/nucleo/compras/compras.service.ts:109-223 | The whole receipt in place: lines, stock, lots, total and, on credit, the account are all written or none is. |
| ServicioCaja.CajaService.Numerar | src/modulos/nucleo/ventas/ventas.service.ts:284-326 | The number of a sale and its row, or neither when the series is not active or the branch already has the number. |
| ServicioCaja.CajaService.ReservarDeTipo | src/modulos/nucleo/fiscal/fiscal.service.ts:533-567 | An active series of the type asked for gives its next number and moves on by one; any other gives none. |
| ServicioCaja.CajaService.EmitirDesdeVenta | src/modulos/nucleo/fiscal/fiscal.service.ts:65-162 | The document of a sale in place, or the one that stands; a series of another company gives its number back. |
| ServicioCaja.CajaService.EmitirNotaCredito | src/modulos/nucleo/fiscal/fiscal.service.ts:165-238 | The credit note of an accepted document, in place. |
| ServicioCaja.CajaService.CrearCargo | src/modulos/nucleo/pagos/pagos.service.ts:69-160 | A charge is on record once, and pays its sale when it is captured at once. |
| ServicioCaja.CajaService.ProcesarAviso | src/modulos/nucleo/pagos/pagos.service.ts:265-345 | A notice of capture pays the sale of the charge, if it has not paid yet. |
| Tablas.Tablas.InsertarAsiento | prisma/operaciones/migraciones/20260724211019_init_operaciones/migration.sql:1885 | An entry whose key is used, that moves nothing or has a negative cost is refused and the ledger stays as it was; any other is appended. |
| ServicioInventario.InventarioService.RegistrarStockInicial | src/modulos/nucleo/inventario/inventario.service.ts:27-107 | In place: the specification's new tables, or the error and the old ones; the invariant is kept. |
| ServicioInventario.InventarioService.AjustarStock | src/modulos/nucleo/inventario/inventario.service.ts:113-258 | The same for an adjustment, its guard on `enStock` and its weighted average included. |
| ServicioInventario.InventarioService.CrearAsientoAjuste | src/modulos/nucleo/inventario/inventario.service.ts:260-292 | The entry carries the signed quantity and cost, and no key twice. |
| ServicioInventario.InventarioService.DefinirNivelStock | src/modulos/nucleo/inventario/inventario.service.ts:491-543 | The same for stock levels. |
| ServicioInventario.InventarioService.CrearReserva | src/modulos/nucleo/inventario/inventario.service.ts:737-796 | The same for a reservation, whose guard is on `available`. |
| ServicioInventario.InventarioService.LiberarReserva | src/modulos/nucleo/inventario/inventario.service.ts:799-858 | The same for its release, clamp included. |
| ServicioInventario.InventarioService.CrearConteo | src/modulos/nucleo/inventario/inventario.service.ts:892-937 | The same for opening a count over the rows of a warehouse. |
| ServicioInventario.InventarioService.RegistrarConteo | src/modulos/nucleo/inventario/inventario.service.ts:940-995 | The loop over counted quantities writes all of them or none. |
| ServicioInventario.InventarioService.ContabilizarConteo | src/modulos/nucleo/inventario/inventario.service.ts:1002-1102 | The loop over counted items posts all of them against live stock or leaves every table unchanged. |
| ServicioInventario.InventarioService.CancelarConteo | src/modulos/nucleo/inventario/inventario.service.ts:1105-1123 | A count that was posted is refused; any other is cancelled. |
| ServicioInventario.InventarioService.CrearTransferencia | src/modulos/nucleo/inventario/inventario.service.ts:1206-1373 | Consolidation and the loop over articles ship all of them or none. |
| ServicioInventario.InventarioService.RecibirTransferencia | src/modulos/nucleo/inventario/inventario.service.ts:1381-1518 | The loop over articles, reading exit costs from the ledger it is appending to, receives all that was named or nothing. |
| ServicioInventario.InventarioService.CancelarTransferencia | src/modulos/nucleo/inventario/inventario.service.ts:1524-1634 | The loop undoes every article or none, and only while nothing has been received. |
| ServicioCompras.ComprasService.Recepcionar | src/modulos/nucleo/compras/compras.service.ts:119-203 | The part of the receipt that moves stock: rows, stock and lots of all lines or of none; the invariant is kept. |
| ServicioCompras.ComprasService.IngresarStock | src/modulos/nucleo/compras/compras.service.ts:307-373 | Balance and entry of one line, creating the row when there is none. |
| ServicioCompras.ComprasService.RegistrarLote | src/modulos/nucleo/compras/compras.service.ts:375-406 | The upsert by warehouse, variant and lot number, in place. |
| ServicioCompras.ComprasService.CargarStockInicial | src/modulos/nucleo/catalogo/catalogo.service.ts:1533-1568 | The catalogue's opening, in place; the invariant is kept. |
| ServicioVentas.VentasService.ConsumirLotesFEFO | src/modulos/nucleo/ventas/ventas.service.ts:1256-1301 | The loop with its early exit charges the lots exactly as the optimal consumption says, or reports the shortage. |
| ServicioVentas.VentasService.RegistrarAsientoVenta | src/modulos/nucleo/ventas/ventas.service.ts:1303-1352 | The loop over lots and the rest write the specification's entries in order. |
| ServicioVentas.VentasService.RegistrarLinea | src/modulos/nucleo/ventas/ventas.service.ts:1118-1247 | Guard, balance, lots and entries of one line, in place. |
| ServicioVentas.VentasService.CalcularLineas | src/modulos/nucleo/ventas/ventas.service.ts:885-1073 | The two passes over the lines, the first for the sale's gross, compute the specification's lines or its error. |
| ServicioVentas.VentasService.Crear | src/modulos/nucleo/ventas/ventas.service.ts:262-343 | The part of the sale that moves stock, sales and promotions: all or none; a retry changes nothing; the joint invariant is kept. |
| ServicioVentas.VentasService.ReingresarStock | src/modulos/nucleo/ventas/ventas.service.ts:733-787 | Putting one line back, in place. |
| ServicioVentas.VentasService.CalcularDevueltas | src/modulos/nucleo/ventas/ventas.service.ts:566-591 | The loop checks each item against earlier refunds and returns the three sums it accumulates. |
| ServicioVentas.VentasService.AnotarReembolso | src/modulos/nucleo/ventas/ventas.service.ts:675-726 | The refund row, the sale's new state and, when nothing is left, the promotion uses given back. |
| ServicioVentas.VentasService.Devolver | src/modulos/nucleo/ventas/ventas.service.ts:486-730 | Amounts, stock, refund, state and uses, all or none; a retry changes nothing; the joint invariant is kept. |
| Dinero.RedondearCerca | src/modulos/nucleo/ventas/ventas.service.ts:566-591 | Rounding to cents is off by at most half a cent. |
| Dinero.RedondearMonotono | src/modulos/nucleo/promociones/motor-promociones.ts:100-118 | Rounding to cents never reorders two amounts. |
| Efectos.LedgerEsLoPedido | src/modulos/nucleo/inventario/inventario.service.ts:27-1634 | After any run the entries of each kind in each cell add up to what the requests of that kind asked for there: openings and receipts in, adjustments in their direction, shipments out of the origin, arrivals into the destination, cancelled shipments back, sales out, refunds in, counts by their difference; refused requests and retries ask for nothing. |
| Efectos.PasoAsienta | src/modulos/nucleo/inventario/inventario.service.ts:27-1634 | One request posts, of each kind and in each cell, exactly what it asks for there. |
| Autoria.CadaAsientoTieneAutor | src/modulos/nucleo/inventario/inventario.service.ts:27-1634 | After any run every entry of the ledger was written by one request of the run, and its kind, cell, document, key and cost are the ones that request asks for in the state it found. |
| Autoria.LlegaAlCostoDeSalida | src/modulos/nucleo/inventario/inventario.service.ts:1430-1475 | After any run what arrives by a transfer, or comes back from a cancelled one, enters the ledger at the unit cost its shipment was recorded at, earlier in the same ledger. |
| Autoria.SalidaUnica | src/modulos/nucleo/inventario/inventario.service.ts:1253-1359 | After any run a transfer has one shipping entry for each variant, so that cost is unambiguous. |
| Documentos.LedgerEsLosDocumentos | src/modulos/nucleo/inventario/inventario.service.ts:27-1634 | After any run, in every cell: receipt entries add up to the receipt rows, shipments to what transfers took out, arrivals to what they received there or gave back, and count entries to the differences of the posted counts. |
| Documentos.StockEsLosDocumentos | src/modulos/nucleo/inventario/inventario.service.ts:209-283 | After any run the stock of every cell is what was opened, adjusted, sold and put back on request plus what receipts, transfers and counts say on paper. |
| Mercaderia.LedgerEsLasVentas | src/modulos/nucleo/ventas/ventas.service.ts:1118-1352 | After any run of sales and refunds the sale entries of a cell are what the lines of the sales on record sold out of it, and its return entries what refund items put back. |
| Mercaderia.StockEsLosPapeles | src/modulos/nucleo/ventas/ventas.service.ts:228-401 | After any run of the whole shop the stock of every cell is what was put there by hand, what receipts, transfers, counts and sales say on paper, and what refunds put back. |
| Mercaderia.LineasNumeradas | src/modulos/nucleo/ventas/ventas.service.ts:1118-1247 | The lines of a sale that move stock are those with a warehouse, in order, each under its own number. |
| Guardas.RegistrarStockInicialSii | src/modulos/nucleo/inventario/inventario.service.ts:27-107 | An opening under a new key commits exactly for a positive quantity and no negative cost, in an open warehouse, of a variant on sale whose stock is kept, without a row yet; then one row and one entry are written and nothing else. |
| Guardas.CargarStockInicialSii | src/modulos/nucleo/catalogo/catalogo.service.ts:1533-1568 | The same for the opening the catalogue posts, which asks less of the variant. |
| Guardas.AjustarSii | src/modulos/nucleo/inventario/inventario.service.ts:113-258 | An adjustment under a new key commits exactly when its warehouse and variant take it, an exit has a row, a variant that forbids it does not go below zero, and the entry would not carry a negative average. |
| Guardas.AjustarCelda | src/modulos/nucleo/inventario/inventario.service.ts:209-292 | A committed new adjustment moves `enStock` of its cell by plus the quantity for an entry and minus it for an exit, moves the average only by the value that came in, changes no other cell, and appends one entry of that sign, type and cost. |
| Guardas.AjusteRepetido | src/modulos/nucleo/inventario/inventario.service.ts:142-170 | Asked again under its key, an adjustment changes nothing. |
| Guardas.DefinirNivelSii | src/modulos/nucleo/inventario/inventario.service.ts:491-543 | Levels are set exactly when neither is negative and a maximum, if any, is not below the minimum; only the two levels of that row change. |
| Guardas.CrearReservaSii | src/modulos/nucleo/inventario/inventario.service.ts:737-796 | A reservation commits exactly when that much is `available`; it moves it from available to reserved and leaves the stock. |
| Guardas.LiberarReservaSii | src/modulos/nucleo/inventario/inventario.service.ts:799-858 | A release commits exactly while the reservation is open, and gives back what was not attended. |
| Traslados.CrearTransferenciaSii | src/modulos/nucleo/inventario/inventario.service.ts:1206-1373 | In every reachable state a transfer under a new key is made exactly when it asks for some of each thing, between two different open warehouses, and the origin can ship the sum of what is asked of every variant. |
| Traslados.RecibirTransferenciaSii | src/modulos/nucleo/inventario/inventario.service.ts:1381-1518 | In every reachable state an open transfer takes a reception under a new key exactly when of no variant more is asked than is still on its way; variants it does not carry are passed over. |
| Traslados.CancelarTransferenciaSii | src/modulos/nucleo/inventario/inventario.service.ts:1524-1634 | In every reachable state a transfer can be cancelled exactly while it is in transit. |
| Traslados.ContabilizarSii | src/modulos/nucleo/inventario/inventario.service.ts:1002-1102 | In every reachable state a count is posted exactly when it is open and no cell it would correct has a negative average. |
| Traslados.PlegarSii | src/modulos/nucleo/inventario/inventario.service.ts:1253-1359 | The form behind these: a loop whose turns do not decide for one another succeeds exactly when each could be made first. |
| Salidas.RegistrarLineaSii | src/modulos/nucleo/ventas/ventas.service.ts:1118-1247 | A sale line leaves its warehouse exactly when negative stock is allowed, or there is a row with that much available and its unexpired lots, if it has lots, cover it; and the average is not below zero. |
| Salidas.ConsumirSii | src/modulos/nucleo/ventas/ventas.service.ts:1256-1301 | The lots of a cell cover a line exactly when none is in stock or those not expired add up to it. |
| Salidas.FEFODicho | src/modulos/nucleo/ventas/ventas.service.ts:1256-1301 | A line takes only from lots of its cell up to the day they expire, and from one only after every sellable lot that expires earlier, or as early and is older, is used up. |
| Registros.CrearConteoDeja | src/modulos/nucleo/inventario/inventario.service.ts:892-937 | A count opens over exactly the rows of its warehouse whose stock is kept, each once, at the stock they hold. |
| Registros.RegistrarConteoSii | src/modulos/nucleo/inventario/inventario.service.ts:940-995 | Quantities are recorded exactly when none is negative, the count is open and every variant is on it or on sale; each item named then holds the last quantity said of it and its difference, and variants that were missing are expected at nothing. |
| Registros.ContabilizarDeja | src/modulos/nucleo/inventario/inventario.service.ts:1002-1102 | A posted count is closed, and each counted item says what the live stock was and how far the count was from it. |
| Registros.TransferirDeja | src/modulos/nucleo/inventario/inventario.service.ts:1330-1360 | A new transfer carries each variant once, for the sum of what was asked of it, none of it received. |
| Registros.RecepcionarDeja | src/modulos/nucleo/compras/compras.service.ts:150-203 | A receipt puts its own row and one row a line on record, each with its line's quantity, cost, lot and expiry. |
| Registros.CompraEntraEnLote | src/modulos/nucleo/compras/compras.service.ts:375-406 | A receipt line enters the lot of its cell and number, which takes the line's expiry if it has one, or opens it; other lots stay. |
| Beneficios.PorcentajeDescuenta | src/modulos/nucleo/promociones/motor-promociones.ts:77-82 | A percentage takes that share of the gross, never above it, to the cent. |
| Beneficios.MontoFijoDescuenta | src/modulos/nucleo/promociones/motor-promociones.ts:83-87 | A fixed amount takes that much for each unit, never above the gross, to the cent. |
| Beneficios.PrecioFijoDeja | src/modulos/nucleo/promociones/motor-promociones.ts:88-93 | A fixed price below the list price leaves the quantity at that price to pay, within half a cent; one that is not below it takes nothing. |
| Beneficios.LlevaPagaDeja | src/modulos/nucleo/promociones/motor-promociones.ts:94-103 | Take n, pay m: of n*j + i whole units, i < n, the line pays m*j + i and its fraction of a unit, within half a cent. |
| Beneficios.LlevaPagaSinGrupo | src/modulos/nucleo/promociones/motor-promociones.ts:94-103 | Where the group is not larger than what is paid for it, nothing is given away. |
| Beneficios.NadaSinAlcance | src/modulos/nucleo/promociones/motor-promociones.ts:66-75 | A promotion that reaches neither the sale nor the product, or asks for a larger quantity, offers nothing; an offer carries a rate only when it is a percentage. |
| Beneficios.LineaDescuenta | src/modulos/nucleo/promociones/motor-promociones.ts:152-184 | A line is discounted by every cumulative promotion whose minimum the sale reaches and by the best of the others, together at most the gross, to the cent. |
| Beneficios.DetallesDicen | src/modulos/nucleo/promociones/motor-promociones.ts:152-184 | The discounts recorded on a line are those of the cumulative promotions that offer one and that of the best of the others, and no other. |
| Importes.VigentesSii | src/modulos/nucleo/promociones/promociones.service.ts:365-440 | Exactly the promotions confirmed, in force and with uses left are loaded, each under its own id. |
| Importes.PrincipalEsPrimero | src/modulos/nucleo/ventas/ventas.service.ts:1016-1022 | The tax that decides is the first that is a rate; there is none exactly when all are fixed amounts. |
| Importes.ImpuestoDeLinea | src/modulos/nucleo/ventas/ventas.service.ts:1016-1042 | The tax of a line is its rate on the net value, `cantidad * valorUnitario`, whether the price includes it or not; it is zero, and the line unaffected, without a tax that is a rate; fixed taxes are charged for each unit. |
| Importes.CalcularLineasSii | src/modulos/nucleo/ventas/ventas.service.ts:885-1073 | The lines of a sale can be calculated exactly when each variant is on sale, has a price and, if its stock is kept, a warehouse; then every line has its own price, discount, taxes, total and warehouse, and promotions see the gross of the whole sale. |
| Importes.VentaPagada | src/modulos/nucleo/ventas/ventas.service.ts:1075-1086 | A new sale is PAGADA exactly when its payments reach a total above zero, and PENDIENTE_PAGO exactly when it has none. |
| Importes.VentaComoSePidio | src/modulos/nucleo/ventas/ventas.service.ts:228-401 | Once made, a sale is for ever what was asked for, line by line and in its sums, whatever requests follow: only its state changes. |
| Importes.DevolucionComoSePidio | src/modulos/nucleo/ventas/ventas.service.ts:593-608 | Once made, a refund is for ever what was asked for, item by item. |
| Libros.VentaPedida | src/modulos/nucleo/ventas/ventas.service.ts:228-401 | After any run of the shop every sale on record is of a request of the run: each line at the price, discount and taxes asked for, under the series and client it named. |
| Libros.VentaConSuCuenta | src/modulos/nucleo/ventas/ventas.service.ts:377-447 | After any run a sale that names a client and was not paid in full has exactly one receivable, for its total less its payments; any other sale has none. |
| Libros.CompraPedida | src/modulos/nucleo/compras/compras.service.ts:136-223 | After any run every receipt on record is of a request of the run and totals its lines: quantity times cost, plus their tax. |
| Libros.CompraConSuCuenta | src/modulos/nucleo/compras/compras.service.ts:205-223 | After any run a receipt on credit has exactly one payable, for that total; one that is not has none. |
| Libros.EstadosDeTienda | src/modulos/nucleo/clientes/clientes.service.ts:268-292 | After any run of the shop, receivable or payable: an account is PENDIENTE exactly when nothing was ever allocated to it, and otherwise PAGADA exactly when what was allocated covers what it was opened for. |
| Cobranza.RegistrarPagoSii | src/modulos/nucleo/clientes/clientes.service.ts:186-266 | A payment under a new key commits exactly when it is for something, its lines add up to it, and each names another instalment that owes at least as much. |
| Cobranza.CobrarDeja | src/modulos/nucleo/compras/compras.service.ts:226-302 | It leaves one allocation a line, every instalment owing less by what was allocated to it, every touched account at the sum of its instalments and settled exactly when that is nothing, and every other row as it was. |
| Cobranza.EstadosDicen | src/modulos/nucleo/clientes/clientes.service.ts:268-292 | After any run of accounts and payments the state of each account and instalment says exactly what was allocated to it. |
| Facturas.TotalesDicen | src/modulos/nucleo/fiscal/constructor-comprobante.ts:133-193 | Each total of a document is the sum of the bases of its own kind: taxed, exempt, unaffected with exports, free; the subtotal and the total leave the free items out. |
| Facturas.CodigosDicen | src/modulos/nucleo/fiscal/fiscal.tipos.ts:38-48 | The category code of an item reads back as its kind of tax; only taxed items print a percentage and only free ones a reference price. |
| Facturas.ImportesDelItem | src/modulos/nucleo/fiscal/constructor-comprobante.ts:135-176 | The base of an item is its value to the cent, and its price times its quantity is that value plus the tax. |
| Facturas.FacturaDice | src/modulos/nucleo/fiscal/fiscal.service.ts:357-406 | The document of a sale has one item a line, carrying the line as it is; its taxes and discounts are the sale's and its total the sale's less what free lines come to. |
| Facturas.PorcentajeImpresoSii | src/modulos/nucleo/fiscal/constructor-comprobante.ts:169-170 | "The tax of an item is the percentage it prints of its net value" holds of a line with a tax that is a rate if and only if that rate is eighteen on a taxed line, or zero on any other: the code prints eighteen whatever was charged. |
| FiscalProgreso.PublicadoConMotivo | src/modulos/nucleo/fiscal/worker/procesador-fiscal.ts:101-127 | In every run, with any number of workers and crashes, an event is published only after the provider answered about it or after five claims. |
| FiscalProgreso.CierreExacto | src/modulos/nucleo/fiscal/worker/procesador-fiscal.ts:101-141 | A worker closes an event by publishing it exactly when the provider answered or the claim was the fifth; otherwise the row is free again, exactly after its wait. |
| FiscalProgreso.EsperaDobla | src/modulos/nucleo/fiscal/worker/procesador-fiscal.ts:129-141 | The wait is a minute, doubled by each attempt, and never more than an hour. |
| FiscalProgreso.ReclamoExacto | src/modulos/nucleo/fiscal/worker/procesador-fiscal.ts:83-99 | A claim takes at most ten events that are due, unpublished and held by nobody, and counts one attempt on each. |
| FiscalProgreso.ArrendamientoExclusivo | src/modulos/nucleo/fiscal/worker/procesador-fiscal.ts:83-99 | A claimed event that nobody closes is claimed by nobody else for two minutes, whatever else happens. |
| FiscalProgreso.NuncaAtascado | src/modulos/nucleo/fiscal/worker/procesador-fiscal.ts:67-141 | From every reachable state an idle worker can claim any unpublished event once its wait and its lease are over, and take it to its end: an answer is recorded as the table allows and the event published. |
| FiscalProgreso.NadieOlvidado | src/modulos/nucleo/fiscal/fiscal.service.ts:248-289 | With one worker and a provider that answers only verdicts the table takes from the queue, every document in the queue has an event still to be published. |
| FiscalProgreso.OtraRespuestaOlvida | src/modulos/nucleo/fiscal/fiscal.service.ts:588-627 | That condition is exact: any other answer about the first document, such as acceptance with observations, publishes its event and leaves it in the queue. |
| FiscalProgreso.OlvidadoSiempre | src/modulos/nucleo/fiscal/fiscal.service.ts:292-312 | Such a document stays there for ever, in every continuation, and no user can send it again. |
| FiscalProgreso.ReintentarSii | src/modulos/nucleo/fiscal/fiscal.service.ts:292-312 | A user can send a document again exactly when it is a draft, rejected or in error and was not sent again before; its new event can be claimed at once. |
| FiscalProgreso.LlegadasDe | src/modulos/nucleo/fiscal/maquina-estados.ts:13-28 | The table of transitions read by columns: from where each state is reached. |
| RelayProgreso.AltaLlega | src/modulos/nucleo/onboarding/onboarding.service.ts:131-148 | After a registration, in every continuation: its event says the code and the two names registered, and once it is published management has the tenant under them, with its control, configuration and onboarding. |
| RelayProgreso.RegistrarSii | src/modulos/nucleo/onboarding/onboarding.service.ts:131-148 | A registration is refused exactly when a tenant has the code; otherwise tenant and event are written together and the event can be claimed at once. |
| RelayProgreso.EntregaExacta | src/modulos/administracion/administracion-inquilino/administracion-inquilino.service.ts:26-116 | A delivery that failed before commit leaves management as it was, one that committed projects the tenant, and only a worker that heard of it goes on to publish. |
| RelayProgreso.ReprogramaExacto | src/modulos/administracion/administracion-inquilino/worker/relay-tenant-outbox.ts:128-142 | A failed delivery leaves its row unpublished and free, claimable exactly after its wait. |
| RelayProgreso.EsperaDobla | src/modulos/administracion/administracion-inquilino/worker/relay-tenant-outbox.ts:128-142 | The wait is a minute, doubled by each attempt, and never more than an hour. |
| RelayProgreso.ArrendamientoExclusivo | src/modulos/administracion/administracion-inquilino/worker/relay-tenant-outbox.ts:81-101 | A claimed row its worker has neither published nor given back is claimed by nobody else for two minutes. |
| RelayProgreso.ReclamoExacto | src/modulos/administracion/administracion-inquilino/worker/relay-tenant-outbox.ts:81-101 | A claim takes at most ten rows that are due, unpublished and held by nobody. |
| Turnos.SoloActivasDan | src/modulos/nucleo/ventas/ventas.service.ts:1092-1116 | In every interleaving the step that commits a document finds its series active, takes its next number and leaves the following one. |
| Turnos.LockSeSuelta | src/modulos/nucleo/ventas/ventas.service.ts:1092-1116 | A lock is never left behind: its holder is under way, and if it gives up the series is free at the number it had. |
| Turnos.TurnoSeguro | src/modulos/nucleo/ventas/ventas.service.ts:1092-1116 | Whoever asks for the number of a free active series under a key nobody has used or is using gets the next one. |
| Talonarios.CambiarEstadoDeja | src/modulos/nucleo/fiscal/series.service.ts:88-103 | Archiving stops a series and activating starts it again at the number it had; no other series changes. |
| Talonarios.EmitirDeja | src/modulos/nucleo/fiscal/fiscal.service.ts:65-162 | The document of a sale is of its company and of the type asked for or suited to the client, under the next number of its series; while one stands, asking again changes nothing. |
| Talonarios.EmitirNotaSii | src/modulos/nucleo/fiscal/fiscal.service.ts:165-238 | A credit note is issued exactly on an accepted document, from an active series of credit notes whose next number none of that company has, and is about the same sale. |
| Talonarios.NotificarPaga | src/modulos/nucleo/pagos/pagos.service.ts:265-345 | A notice of capture makes its charge pay the sale it names exactly once, however often it comes; any other notice changes nothing. |
| Talonarios.CargoPaga | src/modulos/nucleo/pagos/pagos.service.ts:69-160 | A charge under a new key is recorded, and pays its sale at once exactly when it is captured and there is such a sale. |
| Importes.CrearSii | src/modulos/nucleo/ventas/ventas.service.ts:228-343 | A sale under a new key commits exactly when it has lines, every quantity and payment is positive, every line can be sold, its amounts can be computed and the stock part goes through. |
| Libros.CrearVentaSii | src/modulos/nucleo/ventas/ventas.service.ts:228-401 | The whole sale adds two refusals to that: what the checks of cashier, company, branch, register and client say, and a series that cannot give it a number. |
| RelayProgreso.PublicaExacta | src/modulos/administracion/administracion-inquilino/worker/relay-tenant-outbox.ts:103-126 | Publishing writes the hour and frees the row; when it fails the row stays unpublished and waits as after any failure; management is untouched either way. |

## Left out

- HTTP controllers, request validators, guards, row-level security and every tenant but one.
- Provider, payment and mail adapters, file storage, encryption and outgoing webhooks.
- Cash sessions, payment methods, restaurant orders, subscriptions, usage, reports, catalogue editing and promotion editing beyond its effect on limits.
- Branch and warehouse permissions, and the uniqueness of the supplier's document on a receipt.
- Due dates and credit terms of accounts, the change given back, and the membership of the cashier.
- Series: how transactions that take numbers interleave is modelled on values, as steps; `Caja` takes the number inside one atomic transaction.
- Two documents of a sale issued at the same moment: the look-up that returns the one that stands takes no lock, and `Emision` runs each emission in one atomic transaction; only sale keys are part of `Series`.
- Emision: which state a document moves to next is any, as the request says; `Fiscal` says which moves its worker makes.
- Pagos: a charge the gateway refuses with an error, which leaves nothing, and the log of notices already processed.
- ServicioCaja.CajaService.Crear: writes no cash movement for a cash payment, no change given back, and takes the answer of the checks of cashier, register, company, branch and client as a parameter; the unique pair of offline device and offline id is not modelled.
- The customer data a credit note copies.
- The loop that picks a free code for a new tenant; a code is a parameter of registration.
- Direct calls to the consumer of tenant events with payloads that no registration wrote.
- Interleavings inside a stock transaction.
- Amounts in words from one thousand million up, except that they clash there; signs and blanks that the code's integer parsing would accept.
- Tablas: the services share one object for all tables and write them back by hand when a transaction fails, where the original relies on the database's rollback.
- Letras: the printer is modelled on values, although two of its functions push words onto a local list before joining it.
