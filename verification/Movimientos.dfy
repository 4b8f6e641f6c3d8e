/** What each kind of stock movement writes into the balance and the ledger, in the words of
    the service that makes it, and what it leaves unchanged. */
module Movimientos {
  import opened Comun
  import opened Sumas
  import opened Kardex

  /** Weighted average after an inbound movement; an unweighable total takes the new cost. */
  function CostoPonderado(enStock: real, avg: real, cantidad: real, costo: real): real {
    var den := enStock + cantidad;
    if den > 0.0 then (Valor(enStock, avg) + Valor(cantidad, costo)) / den else costo
  }

  /** The average is the one that adds the value received to the value held. */
  lemma {:induction false} PonderadoConserva(enStock: real, avg: real, cantidad: real, costo: real)
    requires enStock + cantidad > 0.0
    ensures Valor(enStock + cantidad, CostoPonderado(enStock, avg, cantidad, costo)) == Valor(enStock, avg) + Valor(cantidad, costo)
  {
    var den := enStock + cantidad;
    var num := Valor(enStock, avg) + Valor(cantidad, costo);
    assert den * (num / den) == num;
  }

  // ------------------------------------------------------------------ opening, adjustment, count

  function Abrir(k: Kardex, c: Celda, cantidad: real, costo: real, clave: Clave): Resultado<Kardex> {
    Mover(k, c, VACIO.(enStock := cantidad, available := cantidad, costoPromedio := costo),
          Asiento(c, None, APERTURA, cantidad, costo, Valor(cantidad, costo), None, clave))
  }

  lemma {:induction false} AbrirSigue(k: Kardex, c: Celda, cantidad: real, costo: real, clave: Clave, vs: map<VarianteId, Variante>)
    requires Cuadra(k) && Firme(k, vs) && c !in k.saldos && c.variante in vs && cantidad > 0.0
    requires Abrir(k, c, cantidad, costo, clave).Ok?
    ensures Sigue(k, Abrir(k, c, cantidad, costo, clave).value, vs)
    ensures SinLotes(k.ledger, Abrir(k, c, cantidad, costo, clave).value.ledger)
  {
    EscribirSigue(k, c, VACIO.(enStock := cantidad, available := cantidad, costoPromedio := costo),
                  Asiento(c, None, APERTURA, cantidad, costo, Valor(cantidad, costo), None, clave), vs);
  }

  function AsientoAjuste(c: Celda, cantidad: real, costo: real, esEntrada: bool, clave: Clave): Asiento {
    Asiento(c, None, if esEntrada then AJUSTE_ENTRADA else AJUSTE_SALIDA,
            if esEntrada then cantidad else -cantidad, costo,
            if esEntrada then Valor(cantidad, costo) else -Valor(cantidad, costo), None, clave)
  }

  function Ajustar(k: Kardex, c: Celda, esEntrada: bool, cantidad: real, costoUnitario: Option<real>,
                   permiteNegativo: bool, clave: Clave): Resultado<Kardex> {
    if c !in k.saldos then
      if !esEntrada then Err(Conflicto)
      else
        var costo := costoUnitario.GetOr(0.0);
        Mover(k, c, VACIO.(enStock := cantidad, available := cantidad, costoPromedio := costo),
              AsientoAjuste(c, cantidad, costo, true, clave))
    else
      var s := k.saldos[c];
      var nuevoStock := if esEntrada then s.enStock + cantidad else s.enStock - cantidad;
      if nuevoStock < 0.0 && !permiteNegativo then Err(Conflicto)
      else
        var conCosto := esEntrada && costoUnitario.Some?;
        var costo := if conCosto then costoUnitario.value else s.costoPromedio;
        var avg := if conCosto then CostoPonderado(s.enStock, s.costoPromedio, cantidad, costo) else s.costoPromedio;
        Mover(k, c, s.(enStock := nuevoStock, available := nuevoStock - s.reserved, costoPromedio := avg),
              AsientoAjuste(c, cantidad, costo, esEntrada, clave))
  }

  lemma {:induction false} AjustarSigue(k: Kardex, c: Celda, esEntrada: bool, cantidad: real, costoUnitario: Option<real>,
                     clave: Clave, vs: map<VarianteId, Variante>)
    requires Cuadra(k) && Firme(k, vs) && c.variante in vs && cantidad > 0.0
    requires Ajustar(k, c, esEntrada, cantidad, costoUnitario, vs[c.variante].allowNegativeStock, clave).Ok?
    ensures var k' := Ajustar(k, c, esEntrada, cantidad, costoUnitario, vs[c.variante].allowNegativeStock, clave).value;
      Sigue(k, k', vs) && SinLotes(k.ledger, k'.ledger)
  {
    if c !in k.saldos {
      var costo := costoUnitario.GetOr(0.0);
      EscribirSigue(k, c, VACIO.(enStock := cantidad, available := cantidad, costoPromedio := costo),
                    AsientoAjuste(c, cantidad, costo, true, clave), vs);
    } else {
      var s := k.saldos[c];
      var nuevoStock := if esEntrada then s.enStock + cantidad else s.enStock - cantidad;
      var conCosto := esEntrada && costoUnitario.Some?;
      var costo := if conCosto then costoUnitario.value else s.costoPromedio;
      var avg := if conCosto then CostoPonderado(s.enStock, s.costoPromedio, cantidad, costo) else s.costoPromedio;
      if conCosto && ProhibeNegativo(vs, c) {
        PonderadoConserva(s.enStock, s.costoPromedio, cantidad, costo);
      }
      EscribirSigue(k, c, s.(enStock := nuevoStock, available := nuevoStock - s.reserved, costoPromedio := avg),
                    AsientoAjuste(c, cantidad, costo, esEntrada, clave), vs);
    }
  }

  /** A counted item sets the balance to what was counted and posts only a real difference. */
  function Contar(k: Kardex, c: Celda, contada: real, conteo: nat): Resultado<Kardex> {
    var s := Fila(k, c);
    var diff := contada - s.enStock;
    var saldos' :=
      if c in k.saldos || contada > 0.0
      then k.saldos[c := s.(enStock := contada, available := contada - s.reserved)]
      else k.saldos;
    if diff == 0.0 then Ok(Kardex(saldos', k.ledger))
    else
      var a := Asiento(c, None, if diff > 0.0 then GANANCIA_CONTEO else PERDIDA_CONTEO, diff, s.costoPromedio,
                       Valor(diff, s.costoPromedio), Some(conteo), Conteo(conteo, c.variante));
      var ledger :- Asentar(k.ledger, a);
      Ok(Kardex(saldos', ledger))
  }

  lemma {:induction false} ContarSigue(k: Kardex, c: Celda, contada: real, conteo: nat, vs: map<VarianteId, Variante>)
    requires Cuadra(k) && Firme(k, vs) && c.variante in vs && contada >= 0.0
    requires Contar(k, c, contada, conteo).Ok?
    ensures var k' := Contar(k, c, contada, conteo).value;
      Sigue(k, k', vs) && SinLotes(k.ledger, k'.ledger) && Fila(k', c).enStock == contada
  {
    var s := Fila(k, c);
    var diff := contada - s.enStock;
    assert CuadraCelda(k, c);
    if diff == 0.0 {
      var k' := Contar(k, c, contada, conteo).value;
      forall d ensures CuadraCelda(k', d) && SigueCelda(k, k', vs, d) {
        assert CuadraCelda(k, d);
      }
    } else {
      var a := Asiento(c, None, if diff > 0.0 then GANANCIA_CONTEO else PERDIDA_CONTEO, diff, s.costoPromedio,
                       Valor(diff, s.costoPromedio), Some(conteo), Conteo(conteo, c.variante));
      ValorSuma(s.enStock, diff, s.costoPromedio);
      var s' := s.(enStock := contada, available := contada - s.reserved);
      assert Contar(k, c, contada, conteo).value == Escribir(k, c, s', a);
      EscribirSigue(k, c, s', a, vs);
    }
  }

  // ------------------------------------------------------------------ sales, refunds, receipts

  function Reingresar(k: Kardex, c: Celda, cantidad: real, devolucion: nat): Resultado<Kardex> {
    var p := Fila(k, c);
    Mover(k, c, p.(enStock := p.enStock + cantidad, available := p.available + cantidad),
          Asiento(c, None, DEVOLUCION_VENTA, cantidad, p.costoPromedio, Valor(cantidad, p.costoPromedio), None,
                  Devolucion(devolucion, c.almacen, c.variante)))
  }

  lemma {:induction false} ReingresarSigue(k: Kardex, c: Celda, cantidad: real, devolucion: nat, vs: map<VarianteId, Variante>)
    requires Cuadra(k) && Firme(k, vs) && c.variante in vs && cantidad > 0.0
    requires Reingresar(k, c, cantidad, devolucion).Ok?
    ensures var k' := Reingresar(k, c, cantidad, devolucion).value;
      Sigue(k, k', vs) && SinLotes(k.ledger, k'.ledger)
  {
    var p := Fila(k, c);
    assert CuadraCelda(k, c);
    ValorSuma(p.enStock, cantidad, p.costoPromedio);
    var s := p.(enStock := p.enStock + cantidad, available := p.available + cantidad);
    var a := Asiento(c, None, DEVOLUCION_VENTA, cantidad, p.costoPromedio, Valor(cantidad, p.costoPromedio), None,
                     Devolucion(devolucion, c.almacen, c.variante));
    EscribirSigue(k, c, s, a, vs);
  }

  function Ingresar(k: Kardex, c: Celda, cantidad: real, costo: real, recepcion: nat): Resultado<Kardex> {
    var p := Fila(k, c);
    var avg := if c in k.saldos then CostoPonderado(p.enStock, p.costoPromedio, cantidad, costo) else costo;
    Mover(k, c, p.(enStock := p.enStock + cantidad, available := p.available + cantidad, costoPromedio := avg),
          Asiento(c, None, RECEPCION_COMPRA, cantidad, costo, Valor(cantidad, costo), None,
                  Recepcion(recepcion, c.almacen, c.variante)))
  }

  lemma {:induction false} IngresarSigue(k: Kardex, c: Celda, cantidad: real, costo: real, recepcion: nat, vs: map<VarianteId, Variante>)
    requires Cuadra(k) && Firme(k, vs) && c.variante in vs && cantidad > 0.0
    requires Ingresar(k, c, cantidad, costo, recepcion).Ok?
    ensures var k' := Ingresar(k, c, cantidad, costo, recepcion).value;
      Sigue(k, k', vs) && SinLotes(k.ledger, k'.ledger)
  {
    var p := Fila(k, c);
    assert CuadraCelda(k, c);
    var avg := if c in k.saldos then CostoPonderado(p.enStock, p.costoPromedio, cantidad, costo) else costo;
    if c in k.saldos && ProhibeNegativo(vs, c) {
      PonderadoConserva(p.enStock, p.costoPromedio, cantidad, costo);
    }
    EscribirSigue(k, c, p.(enStock := p.enStock + cantidad, available := p.available + cantidad, costoPromedio := avg),
                  Asiento(c, None, RECEPCION_COMPRA, cantidad, costo, Valor(cantidad, costo), None,
                          Recepcion(recepcion, c.almacen, c.variante)), vs);
  }

  /** Where negative stock is allowed an inbound cost can leak value: exactly when the balance
      is still not above zero after it, and then by the old stock times the change of cost. */
  lemma {:induction false} IngresarFuga(k: Kardex, c: Celda, cantidad: real, costo: real, recepcion: nat)
    requires c in k.saldos && Ingresar(k, c, cantidad, costo, recepcion).Ok?
    ensures var k' := Ingresar(k, c, cantidad, costo, recepcion).value;
      && (Fila(k, c).enStock + cantidad > 0.0 ==> Brecha(k', c) == Brecha(k, c))
      && (Fila(k, c).enStock + cantidad <= 0.0 ==>
            Brecha(k', c) == Brecha(k, c) + Fila(k, c).enStock * (costo - Fila(k, c).costoPromedio))
  {
    var p := k.saldos[c];
    var avg := CostoPonderado(p.enStock, p.costoPromedio, cantidad, costo);
    if p.enStock + cantidad > 0.0 {
      PonderadoConserva(p.enStock, p.costoPromedio, cantidad, costo);
    }
  }

  // ------------------------------------------------------------------ transfers

  function SalidaTransferencia(k: Kardex, c: Celda, cantidad: real, permiteNegativo: bool,
                               transferencia: nat, clave: Clave): Resultado<Kardex> {
    if c !in k.saldos then Err(Conflicto)
    else
      var s := k.saldos[c];
      var nuevoStock := s.enStock - cantidad;
      if nuevoStock < 0.0 && !permiteNegativo then Err(Conflicto)
      else Mover(k, c, s.(enStock := nuevoStock, available := nuevoStock - s.reserved),
                 Asiento(c, None, TRANSFERENCIA_SALIDA, -cantidad, s.costoPromedio, -Valor(cantidad, s.costoPromedio),
                         Some(transferencia), clave))
  }

  function SumarTransito(k: Kardex, c: Celda, cantidad: real): Kardex {
    var s := Fila(k, c);
    k.(saldos := k.saldos[c := s.(enTransito := s.enTransito + cantidad)])
  }

  /** Ship one article: out of the origin, on its way at the destination. */
  function Despachar(k: Kardex, origen: Celda, destino: Celda, cantidad: real, permiteNegativo: bool,
                     transferencia: nat, clave: Clave): Resultado<Kardex> {
    var k1 :- SalidaTransferencia(k, origen, cantidad, permiteNegativo, transferencia, clave);
    Ok(SumarTransito(k1, destino, cantidad))
  }

  lemma {:induction false} SalidaSigue(k: Kardex, c: Celda, cantidad: real, transferencia: nat, clave: Clave, vs: map<VarianteId, Variante>)
    requires Cuadra(k) && Firme(k, vs) && cantidad > 0.0 && c.variante in vs
    requires SalidaTransferencia(k, c, cantidad, vs[c.variante].allowNegativeStock, transferencia, clave).Ok?
    ensures var k' := SalidaTransferencia(k, c, cantidad, vs[c.variante].allowNegativeStock, transferencia, clave).value;
      && c in k.saldos
      && Sigue(k, k', vs) && SinLotes(k.ledger, k'.ledger) && k'.saldos.Keys == k.saldos.Keys
      && k'.saldos == k.saldos[c := k'.saldos[c]] && Fila(k', c).enStock == Fila(k, c).enStock - cantidad
  {
    var s := k.saldos[c];
    var s' := s.(enStock := s.enStock - cantidad, available := s.enStock - cantidad - s.reserved);
    var a := Asiento(c, None, TRANSFERENCIA_SALIDA, -cantidad, s.costoPromedio, -Valor(cantidad, s.costoPromedio),
                     Some(transferencia), clave);
    assert CuadraCelda(k, c);
    ValorSuma(s.enStock, cantidad, s.costoPromedio);
    EscribirSigue(k, c, s', a, vs);
  }

  lemma {:induction false} DespacharTraslada(k: Kardex, origen: Celda, destino: Celda, cantidad: real,
                          transferencia: nat, clave: Clave, vs: map<VarianteId, Variante>)
    requires Cuadra(k) && Firme(k, vs) && cantidad > 0.0
    requires origen.almacen != destino.almacen && origen.variante == destino.variante && origen.variante in vs
    requires Despachar(k, origen, destino, cantidad, vs[origen.variante].allowNegativeStock, transferencia, clave).Ok?
    ensures var k' := Despachar(k, origen, destino, cantidad, vs[origen.variante].allowNegativeStock, transferencia, clave).value;
      && Cuadra(k') && Firme(k', vs)
      && SinLotes(k.ledger, k'.ledger)
      && k'.saldos.Keys == k.saldos.Keys + {destino} && origen in k.saldos
      && Traslada(k, k', vs, origen, -cantidad, 0.0, destino, cantidad)
  {
    SalidaSigue(k, origen, cantidad, transferencia, clave, vs);
    var k1 := SalidaTransferencia(k, origen, cantidad, vs[origen.variante].allowNegativeStock, transferencia, clave).value;
    var k', menos := SumarTransito(k1, destino, cantidad), -cantidad;
    forall c ensures CuadraCelda(k', c) {
      assert CuadraCelda(k1, c);
    }
    assert Firme(k', vs) by { assert CuadraCelda(k1, destino); }
    forall c ensures TrasladaCelda(k, k', vs, c, origen, menos, 0.0, destino, cantidad) {
      assert SigueCelda(k, k1, vs, c);
      assert Fila(k1, c) == if c == origen then Fila(k1, origen) else Fila(k, c);
      assert Brecha(k', c) == Brecha(k1, c);
    }
  }

  /** Receive one article at the destination, weighting its recorded exit cost. */
  function RecibirArticulo(k: Kardex, c: Celda, cantidad: real, costo: real,
                           transferencia: nat, clave: Clave): Resultado<Kardex> {
    if c !in k.saldos then Err(Conflicto)
    else
      var s := k.saldos[c];
      var nuevoStock := s.enStock + cantidad;
      Mover(k, c, s.(enStock := nuevoStock, available := nuevoStock - s.reserved,
                     enTransito := s.enTransito - cantidad,
                     costoPromedio := CostoPonderado(s.enStock, s.costoPromedio, cantidad, costo)),
            Asiento(c, None, TRANSFERENCIA_ENTRADA, cantidad, costo, Valor(cantidad, costo), Some(transferencia), clave))
  }

  lemma {:induction false} RecibirTraslada(k: Kardex, c: Celda, cantidad: real, costo: real,
                        transferencia: nat, clave: Clave, vs: map<VarianteId, Variante>)
    requires Cuadra(k) && Firme(k, vs) && cantidad > 0.0 && Fila(k, c).enTransito >= cantidad
    requires RecibirArticulo(k, c, cantidad, costo, transferencia, clave).Ok?
    ensures var k' := RecibirArticulo(k, c, cantidad, costo, transferencia, clave).value;
      && Cuadra(k') && Firme(k', vs)
      && SinLotes(k.ledger, k'.ledger)
      && k'.saldos.Keys == k.saldos.Keys
      && Traslada(k, k', vs, c, cantidad, 0.0, c, -cantidad)
  {
    var s := k.saldos[c];
    assert CuadraCelda(k, c);
    if ProhibeNegativo(vs, c) {
      PonderadoConserva(s.enStock, s.costoPromedio, cantidad, costo);
    }
    var s' := s.(enStock := s.enStock + cantidad, available := s.enStock + cantidad - s.reserved,
                 enTransito := s.enTransito - cantidad,
                 costoPromedio := CostoPonderado(s.enStock, s.costoPromedio, cantidad, costo));
    var a := Asiento(c, None, TRANSFERENCIA_ENTRADA, cantidad, costo, Valor(cantidad, costo), Some(transferencia), clave);
    EscribirCuadra(k, c, s', a);
    var k', menos := Escribir(k, c, s', a), -cantidad;
    forall d ensures TrasladaCelda(k, k', vs, d, c, cantidad, 0.0, c, menos) {
    }
  }

  /** Undo the shipment of one article. The origin's average is left as it is. */
  function CancelarArticulo(k: Kardex, origen: Celda, destino: Celda, cantidad: real, costo: real,
                            transferencia: nat): Resultado<Kardex> {
    var a := Asiento(origen, None, TRANSFERENCIA_ENTRADA, cantidad, costo, Valor(cantidad, costo), Some(transferencia),
                     TransfCancel(transferencia, origen.variante));
    var ledger :- Asentar(k.ledger, a);
    var saldos1 :=
      if origen in k.saldos then
        var s := k.saldos[origen];
        k.saldos[origen := s.(enStock := s.enStock + cantidad, available := s.enStock + cantidad - s.reserved)]
      else k.saldos;
    var saldos2 :=
      if destino in saldos1 then
        var s := saldos1[destino];
        var enTransito := s.enTransito - cantidad;
        saldos1[destino := s.(enTransito := if enTransito < 0.0 then 0.0 else enTransito)]
      else saldos1;
    Ok(Kardex(saldos2, ledger))
  }

  lemma {:induction false} CancelarTraslada(k: Kardex, origen: Celda, destino: Celda, cantidad: real, costo: real,
                         transferencia: nat, vs: map<VarianteId, Variante>)
    requires Cuadra(k) && Firme(k, vs) && cantidad > 0.0
    requires origen.almacen != destino.almacen && origen.variante == destino.variante
    requires origen in k.saldos && destino in k.saldos && k.saldos[destino].enTransito >= cantidad
    requires CancelarArticulo(k, origen, destino, cantidad, costo, transferencia).Ok?
    ensures var k' := CancelarArticulo(k, origen, destino, cantidad, costo, transferencia).value;
      && Cuadra(k') && Firme(k', vs)
      && SinLotes(k.ledger, k'.ledger)
      && k'.saldos.Keys == k.saldos.Keys
      && (forall c :: Fila(k', c).costoPromedio == Fila(k, c).costoPromedio)
      && Traslada(k, k', vs, origen, cantidad, Valor(cantidad, k.saldos[origen].costoPromedio) - Valor(cantidad, costo), destino, -cantidad)
  {
    var s := k.saldos[origen];
    var a := Asiento(origen, None, TRANSFERENCIA_ENTRADA, cantidad, costo, Valor(cantidad, costo), Some(transferencia),
                     TransfCancel(transferencia, origen.variante));
    var s' := s.(enStock := s.enStock + cantidad, available := s.enStock + cantidad - s.reserved);
    assert CuadraCelda(k, origen);
    EscribirCuadra(k, origen, s', a);
    var k1 := Escribir(k, origen, s', a);
    var k' := CancelarArticulo(k, origen, destino, cantidad, costo, transferencia).value;
    forall c ensures CuadraCelda(k', c) {
      assert CuadraCelda(k1, c);
    }
    ValorSuma(s.enStock, cantidad, s.costoPromedio);
    var menos, brecha := -cantidad, Valor(cantidad, s.costoPromedio) - Valor(cantidad, costo);
    forall c ensures TrasladaCelda(k, k', vs, c, origen, cantidad, brecha, destino, menos) {
    }
  }
}
