/** Correlative numbers under a row lock. Transactions begin, check their key, lock the series
    row, read and increment the next number, insert their document and commit, or abort at any
    point; their steps interleave freely. */
module Series {
  import opened Comun

  type SerieId = nat
  type TxId = nat

  /** One DocumentSeries row: what is committed, and who holds its lock. */
  datatype Serie = Serie(primero: nat, nextNumber: nat, activa: bool, lock: Option<TxId>)

  /** How far a transaction has come. */
  datatype Fase = Iniciada | SinPrevio | Bloqueo(leido: nat) | Incremento(leido: nat) | Insercion(leido: nat)

  /** Sales carry an idempotency key under a unique index; fiscal documents carry none. */
  datatype Tx = Tx(serie: SerieId, clave: Option<string>, fase: Fase)

  /** A committed sale or fiscal document. */
  datatype Doc = Doc(serie: SerieId, numero: nat, clave: Option<string>)

  datatype Estado = Estado(series: map<SerieId, Serie>, txs: map<TxId, Tx>, docs: seq<Doc>)

  const INICIAL: Estado := Estado(map[], map[], [])

  datatype Paso =
    | CrearSerie(serie: SerieId, primero: nat)
    | CambiarEstado(serie: SerieId, activar: bool)
    | Iniciar(tx: TxId, serie: SerieId, clave: Option<string>)
    | VerClave(tx: TxId)
    | Bloquear(tx: TxId)
    | Incrementar(tx: TxId)
    | Insertar(tx: TxId)
    | Confirmar(tx: TxId)
    | Abortar(tx: TxId)

  predicate ClaveConfirmada(docs: seq<Doc>, clave: Option<string>) {
    clave.Some? && exists i :: 0 <= i < |docs| && docs[i].clave == clave
  }

  /** Another transaction has inserted the key and not finished: the unique index makes this one wait. */
  predicate ClaveEnCurso(txs: map<TxId, Tx>, t: TxId, clave: Option<string>) {
    clave.Some? && exists u :: u in txs && u != t && txs[u].fase.Insercion? && txs[u].clave == clave
  }

  predicate TieneLock(tx: Tx) {
    tx.fase.Bloqueo? || tx.fase.Incremento? || tx.fase.Insercion?
  }

  /** A transaction ends: its lock, if it has one, is free again. */
  function Terminar(s: Estado, t: TxId): Estado
    requires t in s.txs
  {
    var id := s.txs[t].serie;
    s.(txs := s.txs - {t},
       series := if id in s.series && s.series[id].lock == Some(t) then s.series[id := s.series[id].(lock := None)] else s.series)
  }

  /** The next state, or the same one when the step is not enabled: it waits, or does not apply. */
  function Dar(s: Estado, p: Paso): Estado {
    match p
    case CrearSerie(id, primero) =>
      if id in s.series then s else s.(series := s.series[id := Serie(primero, primero, true, None)])
    case CambiarEstado(id, activar) =>
      if id in s.series && s.series[id].lock == None then s.(series := s.series[id := s.series[id].(activa := activar)]) else s
    case Iniciar(t, id, clave) =>
      if t in s.txs then s else s.(txs := s.txs[t := Tx(id, clave, Iniciada)])
    case VerClave(t) =>
      if t !in s.txs || !s.txs[t].fase.Iniciada? then s
      else if ClaveConfirmada(s.docs, s.txs[t].clave) then Terminar(s, t)
      else s.(txs := s.txs[t := s.txs[t].(fase := SinPrevio)])
    case Bloquear(t) =>
      if t !in s.txs || !s.txs[t].fase.SinPrevio? then s
      else
        var id := s.txs[t].serie;
        if id !in s.series then Terminar(s, t)
        else if s.series[id].lock != None then s
        else if !s.series[id].activa then Terminar(s, t)
        else s.(series := s.series[id := s.series[id].(lock := Some(t))],
                txs := s.txs[t := s.txs[t].(fase := Bloqueo(s.series[id].nextNumber))])
    case Incrementar(t) =>
      if t !in s.txs || !s.txs[t].fase.Bloqueo? then s
      else s.(txs := s.txs[t := s.txs[t].(fase := Incremento(s.txs[t].fase.leido))])
    case Insertar(t) =>
      if t !in s.txs || !s.txs[t].fase.Incremento? || ClaveEnCurso(s.txs, t, s.txs[t].clave) then s
      else if ClaveConfirmada(s.docs, s.txs[t].clave) then Terminar(s, t)
      else s.(txs := s.txs[t := s.txs[t].(fase := Insercion(s.txs[t].fase.leido))])
    case Confirmar(t) =>
      if t !in s.txs || !s.txs[t].fase.Insercion? || s.txs[t].serie !in s.series then s
      else
        var tx := s.txs[t];
        s.(docs := s.docs + [Doc(tx.serie, tx.fase.leido, tx.clave)],
           series := s.series[tx.serie := s.series[tx.serie].(nextNumber := tx.fase.leido + 1, lock := None)],
           txs := s.txs - {t})
    case Abortar(t) =>
      if t !in s.txs then s else Terminar(s, t)
  }

  function Correr(ps: seq<Paso>): Estado {
    if |ps| == 0 then INICIAL else Dar(Correr(ps[..|ps| - 1]), ps[|ps| - 1])
  }

  /** The numbers committed documents of a series hold, in the order they were committed. */
  function Numeros(docs: seq<Doc>, id: SerieId): seq<nat> {
    if |docs| == 0 then []
    else Numeros(docs[..|docs| - 1], id) + (if docs[|docs| - 1].serie == id then [docs[|docs| - 1].numero] else [])
  }

  // ------------------------------------------------------------------ the invariant

  /** The committed numbers run from the first one up to the next, each once and in order. */
  ghost predicate SinHuecos(docs: seq<Doc>, id: SerieId, serie: Serie) {
    && serie.primero <= serie.nextNumber
    && |Numeros(docs, id)| == serie.nextNumber - serie.primero
    && forall i :: 0 <= i < |Numeros(docs, id)| ==> Numeros(docs, id)[i] == serie.primero + i
  }

  ghost predicate LockBien(s: Estado, t: TxId)
    requires t in s.txs
  {
    var tx := s.txs[t];
    TieneLock(tx) ==>
      tx.serie in s.series && s.series[tx.serie].lock == Some(t) && tx.fase.leido == s.series[tx.serie].nextNumber
  }

  ghost predicate ClavesUnicas(docs: seq<Doc>) {
    forall i, j :: 0 <= i < j < |docs| && docs[i].clave.Some? ==> docs[i].clave != docs[j].clave
  }

  ghost predicate InsercionBien(s: Estado, t: TxId)
    requires t in s.txs
  {
    s.txs[t].fase.Insercion? ==> !ClaveConfirmada(s.docs, s.txs[t].clave) && !ClaveEnCurso(s.txs, t, s.txs[t].clave)
  }

  ghost predicate SoloSeriesConocidas(s: Estado) {
    forall i :: 0 <= i < |s.docs| ==> s.docs[i].serie in s.series
  }

  ghost predicate Bien(s: Estado) {
    && (forall id :: id in s.series ==> SinHuecos(s.docs, id, s.series[id]))
    && (forall t :: t in s.txs ==> LockBien(s, t))
    && (forall t :: t in s.txs ==> InsercionBien(s, t))
    && ClavesUnicas(s.docs)
    && SoloSeriesConocidas(s)
  }

  lemma {:induction false} SinDocumentos(docs: seq<Doc>, id: SerieId)
    requires forall i :: 0 <= i < |docs| ==> docs[i].serie != id
    ensures Numeros(docs, id) == []
  {
    if |docs| > 0 {
      SinDocumentos(docs[..|docs| - 1], id);
    }
  }

  lemma {:induction false} TerminarMantiene(s: Estado, t: TxId)
    requires Bien(s) && t in s.txs
    ensures Bien(Terminar(s, t))
  {
    var s' := Terminar(s, t);
    forall id | id in s'.series ensures SinHuecos(s'.docs, id, s'.series[id]) {
      assert SinHuecos(s.docs, id, s.series[id]);
    }
    forall u | u in s'.txs ensures LockBien(s', u) && InsercionBien(s', u) {
      assert LockBien(s, u) && InsercionBien(s, u);
    }
  }

  lemma {:induction false} ConfirmarMantiene(s: Estado, t: TxId)
    requires Bien(s) && t in s.txs && s.txs[t].fase.Insercion? && s.txs[t].serie in s.series
    ensures Bien(Dar(s, Confirmar(t)))
  {
    var s', tx := Dar(s, Confirmar(t)), s.txs[t];
    var d := Doc(tx.serie, tx.fase.leido, tx.clave);
    assert LockBien(s, t) && InsercionBien(s, t);
    assert (s.docs + [d])[..|s.docs|] == s.docs;
    forall id | id in s'.series ensures SinHuecos(s'.docs, id, s'.series[id]) {
      assert SinHuecos(s.docs, id, s.series[id]);
    }
    forall u | u in s'.txs ensures LockBien(s', u) && InsercionBien(s', u) {
      assert LockBien(s, u) && InsercionBien(s, u);
    }
  }

  lemma {:induction false} FaseMantiene(s: Estado, t: TxId, fase: Fase)
    requires Bien(s) && t in s.txs
    requires fase.SinPrevio? || (fase.Incremento? && TieneLock(s.txs[t]) && fase.leido == s.txs[t].fase.leido)
    requires !s.txs[t].fase.Insercion?
    ensures Bien(s.(txs := s.txs[t := s.txs[t].(fase := fase)]))
  {
    var s' := s.(txs := s.txs[t := s.txs[t].(fase := fase)]);
    assert LockBien(s, t);
    forall u | u in s'.txs ensures LockBien(s', u) && InsercionBien(s', u) {
      assert u in s.txs && LockBien(s, u) && InsercionBien(s, u);
    }
  }

  lemma {:induction false} InsertarMantiene(s: Estado, t: TxId)
    requires Bien(s) && t in s.txs && s.txs[t].fase.Incremento?
    requires !ClaveEnCurso(s.txs, t, s.txs[t].clave) && !ClaveConfirmada(s.docs, s.txs[t].clave)
    ensures Bien(s.(txs := s.txs[t := s.txs[t].(fase := Insercion(s.txs[t].fase.leido))]))
  {
    var s' := s.(txs := s.txs[t := s.txs[t].(fase := Insercion(s.txs[t].fase.leido))]);
    assert LockBien(s, t);
    forall u | u in s'.txs ensures LockBien(s', u) && InsercionBien(s', u) {
      assert u in s.txs && LockBien(s, u) && InsercionBien(s, u);
    }
  }

  lemma {:induction false} BloquearMantiene(s: Estado, t: TxId)
    requires Bien(s) && t in s.txs && s.txs[t].fase.SinPrevio?
    requires s.txs[t].serie in s.series && s.series[s.txs[t].serie].lock == None
    ensures var id := s.txs[t].serie;
      Bien(s.(series := s.series[id := s.series[id].(lock := Some(t))],
              txs := s.txs[t := s.txs[t].(fase := Bloqueo(s.series[id].nextNumber))]))
  {
    var id := s.txs[t].serie;
    var s' := s.(series := s.series[id := s.series[id].(lock := Some(t))],
                 txs := s.txs[t := s.txs[t].(fase := Bloqueo(s.series[id].nextNumber))]);
    assert SinHuecos(s.docs, id, s.series[id]);
    forall j | j in s'.series ensures SinHuecos(s'.docs, j, s'.series[j]) {
      assert SinHuecos(s.docs, j, s.series[j]);
    }
    forall u | u in s'.txs ensures LockBien(s', u) && InsercionBien(s', u) {
      assert u in s.txs && LockBien(s, u) && InsercionBien(s, u);
    }
  }

  lemma {:induction false} SeriesMantiene(s: Estado, id: SerieId, serie: Serie)
    requires Bien(s)
    requires if id in s.series then s.series[id].lock == None && serie == s.series[id].(activa := serie.activa)
             else serie == Serie(serie.primero, serie.primero, true, None)
    ensures Bien(s.(series := s.series[id := serie]))
  {
    var s' := s.(series := s.series[id := serie]);
    if id !in s.series {
      SinDocumentos(s.docs, id);
    }
    forall j | j in s'.series ensures SinHuecos(s'.docs, j, s'.series[j]) {
      if j in s.series {
        assert SinHuecos(s.docs, j, s.series[j]);
      }
    }
    forall u | u in s'.txs ensures LockBien(s', u) && InsercionBien(s', u) {
      assert LockBien(s, u) && InsercionBien(s, u);
    }
  }

  lemma {:induction false} IniciarMantiene(s: Estado, t: TxId, tx: Tx)
    requires Bien(s) && t !in s.txs && tx.fase.Iniciada?
    ensures Bien(s.(txs := s.txs[t := tx]))
  {
    var s' := s.(txs := s.txs[t := tx]);
    forall u | u in s'.txs ensures LockBien(s', u) && InsercionBien(s', u) {
      if u != t {
        assert LockBien(s, u) && InsercionBien(s, u);
      }
    }
  }

  lemma {:induction false} DarMantiene(s: Estado, p: Paso)
    requires Bien(s)
    ensures Bien(Dar(s, p))
  {
    if Dar(s, p) != s {
      match p
      case CrearSerie(id, primero) => SeriesMantiene(s, id, Serie(primero, primero, true, None));
      case CambiarEstado(id, activar) => SeriesMantiene(s, id, s.series[id].(activa := activar));
      case Iniciar(t, id, clave) => IniciarMantiene(s, t, Tx(id, clave, Iniciada));
      case VerClave(t) =>
        if ClaveConfirmada(s.docs, s.txs[t].clave) { TerminarMantiene(s, t); } else { FaseMantiene(s, t, SinPrevio); }
      case Bloquear(t) =>
        if s.txs[t].serie !in s.series || !s.series[s.txs[t].serie].activa { TerminarMantiene(s, t); } else { BloquearMantiene(s, t); }
      case Incrementar(t) => FaseMantiene(s, t, Incremento(s.txs[t].fase.leido));
      case Insertar(t) =>
        if ClaveConfirmada(s.docs, s.txs[t].clave) { TerminarMantiene(s, t); } else { InsertarMantiene(s, t); }
      case Confirmar(t) => ConfirmarMantiene(s, t);
      case Abortar(t) => TerminarMantiene(s, t);
    }
  }

  lemma {:induction false} CorrerMantiene(ps: seq<Paso>)
    ensures Bien(Correr(ps))
  {
    if |ps| > 0 {
      CorrerMantiene(ps[..|ps| - 1]);
      DarMantiene(Correr(ps[..|ps| - 1]), ps[|ps| - 1]);
    }
  }

  // ------------------------------------------------------------------ what it guarantees

  /** In every interleaving the numbers of a series are exactly first, first + 1, ..., next - 1,
      each held by one committed document, in the order of their commits. */
  lemma {:induction false} CorrelativosSinHuecos(ps: seq<Paso>, id: SerieId)
    requires id in Correr(ps).series
    ensures var s := Correr(ps);
      && |Numeros(s.docs, id)| == s.series[id].nextNumber - s.series[id].primero
      && forall i :: 0 <= i < |Numeros(s.docs, id)| ==> Numeros(s.docs, id)[i] == s.series[id].primero + i
  {
    CorrerMantiene(ps);
    assert SinHuecos(Correr(ps).docs, id, Correr(ps).series[id]);
  }

  /** Two transactions never hold the lock of one series at once. */
  lemma {:induction false} LockExclusivo(ps: seq<Paso>, t: TxId, u: TxId)
    requires t in Correr(ps).txs && u in Correr(ps).txs && t != u
    requires TieneLock(Correr(ps).txs[t]) && TieneLock(Correr(ps).txs[u])
    ensures Correr(ps).txs[t].serie != Correr(ps).txs[u].serie
  {
    CorrerMantiene(ps);
    assert LockBien(Correr(ps), t) && LockBien(Correr(ps), u);
  }

  function Usos(docs: seq<Doc>, clave: string): nat {
    if |docs| == 0 then 0 else Usos(docs[..|docs| - 1], clave) + (if docs[|docs| - 1].clave == Some(clave) then 1 else 0)
  }

  lemma {:induction false} UsosUnicos(docs: seq<Doc>, clave: string)
    requires ClavesUnicas(docs)
    ensures Usos(docs, clave) <= 1
    ensures Usos(docs, clave) == 0 <==> !ClaveConfirmada(docs, Some(clave))
  {
    if |docs| > 0 {
      var n := |docs| - 1;
      UsosUnicos(docs[..n], clave);
      if ClaveConfirmada(docs[..n], Some(clave)) {
        var i :| 0 <= i < n && docs[..n][i].clave == Some(clave);
        assert docs[i].clave == Some(clave);
      }
      if ClaveConfirmada(docs, Some(clave)) {
        var i :| 0 <= i < |docs| && docs[i].clave == Some(clave);
        assert i < n ==> docs[..n][i].clave == Some(clave);
      }
    }
  }

  /** However often and however concurrently a key is retried, it takes at most one number; and
      once it has one, every further step leaves it the only document of the key. */
  lemma {:induction false} ClaveTomaUnNumero(ps: seq<Paso>, clave: string)
    ensures Usos(Correr(ps).docs, clave) <= 1
  {
    CorrerMantiene(ps);
    UsosUnicos(Correr(ps).docs, clave);
  }
}
