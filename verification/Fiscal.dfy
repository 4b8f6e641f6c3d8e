/** Electronic documents: the table of state transitions, and the worker that claims an event,
    reads the document, asks the provider and writes the verdict from what it read. */
module Fiscal {
  import opened Comun

  datatype EstadoDoc =
    | BORRADOR | EN_COLA | FIRMADO | ENVIADO | ACEPTADO | ACEPTADO_CON_OBSERVACIONES
    | RECHAZADO | ERROR | BAJA_SOLICITADA | ANULADO

  function Transiciones(e: EstadoDoc): set<EstadoDoc> {
    match e
    case BORRADOR => {EN_COLA, ERROR}
    case EN_COLA => {FIRMADO, ENVIADO, ACEPTADO, RECHAZADO, ERROR}
    case FIRMADO => {ENVIADO, ERROR}
    case ENVIADO => {ACEPTADO, ACEPTADO_CON_OBSERVACIONES, RECHAZADO, ERROR}
    case ACEPTADO => {BAJA_SOLICITADA}
    case ACEPTADO_CON_OBSERVACIONES => {BAJA_SOLICITADA}
    case RECHAZADO => {EN_COLA}
    case ERROR => {EN_COLA}
    case BAJA_SOLICITADA => {ANULADO, ERROR}
    case ANULADO => {}
  }

  const ESTADOS_FINALES: set<EstadoDoc> := {ACEPTADO, ACEPTADO_CON_OBSERVACIONES, ANULADO}
  const ESTADOS_PROCESABLES: set<EstadoDoc> := {EN_COLA, ERROR}

  predicate PuedeTransicionar(desde: EstadoDoc, hacia: EstadoDoc) {
    hacia in Transiciones(desde)
  }

  /** registrarResultado: the state asked for when the one READ allows it, otherwise the one read. */
  function Destino(leido: EstadoDoc, pedido: EstadoDoc): EstadoDoc {
    if PuedeTransicionar(leido, pedido) then pedido else leido
  }

  predicate EsLegal(desde: EstadoDoc, hacia: EstadoDoc) {
    desde == hacia || PuedeTransicionar(desde, hacia)
  }

  // ------------------------------------------------------------------ tables and workers

  type DocId = nat
  type WorkerId = nat

  datatype Causa = Emision | Reintento

  /** One OutboxEvent row; its key is the document and the cause. Times are in seconds. */
  datatype Evento = Evento(
    doc: DocId, causa: Causa, intentos: nat, disponibleEn: nat, bloqueadoEn: Option<nat>, publicado: bool)

  datatype Trabajo = Trabajo(evento: nat, intentos: nat)

  /** Where a worker stands with the first event of its queue. */
  datatype Fase =
    | PorLeer
    | Consultando(leido: EstadoDoc)
    | PorEscribir(leido: EstadoDoc, pedido: EstadoDoc, respondio: bool)
    | PorCerrar(procesado: bool)

  datatype Worker = Worker(cola: seq<Trabajo>, fase: Fase)

  datatype Estado = Estado(ahora: nat, docs: seq<EstadoDoc>, eventos: seq<Evento>, workers: map<WorkerId, Worker>)

  const INICIAL: Estado := Estado(0, [], [], map[])

  const MAX_INTENTOS: nat := 5
  const ARRENDAMIENTO: nat := 120
  const LOTE: nat := 10

  datatype Paso =
    | Pasar(segundos: nat)
    | Emitir
    | Reintentar(doc: DocId)
    | Reclamar(worker: WorkerId, ids: seq<nat>)
    | Leer(worker: WorkerId)
    | Responder(worker: WorkerId, respuesta: Option<EstadoDoc>)   // none: the provider failed
    | Escribir(worker: WorkerId)
    | Cerrar(worker: WorkerId)
    | Caer(worker: WorkerId)

  predicate Encolado(eventos: seq<Evento>, doc: DocId, causa: Causa) {
    exists i :: 0 <= i < |eventos| && eventos[i].doc == doc && eventos[i].causa == causa
  }

  /** A new document and its event, as persistirDocumento leaves them. */
  function EmitirDoc(s: Estado): Estado {
    s.(docs := s.docs + [EN_COLA], eventos := s.eventos + [Evento(|s.docs|, Emision, 0, s.ahora, None, false)])
  }

  /** reintentar: the state must allow it, and the unique key of the event must be unused. */
  function ReintentarDoc(s: Estado, d: DocId): Resultado<Estado> {
    if d >= |s.docs| then Err(NoEncontrado)
    else if !PuedeTransicionar(s.docs[d], EN_COLA) then Err(Conflicto)
    else if Encolado(s.eventos, d, Reintento) then Err(ClaveRepetida)
    else Ok(s.(docs := s.docs[d := EN_COLA], eventos := s.eventos + [Evento(d, Reintento, 0, s.ahora, None, false)]))
  }

  predicate Reclamable(e: Evento, ahora: nat) {
    && !e.publicado && e.disponibleEn <= ahora
    && (e.bloqueadoEn == None || e.bloqueadoEn.value + ARRENDAMIENTO < ahora)
  }

  predicate LoteValido(s: Estado, ids: seq<nat>) {
    && 0 < |ids| <= LOTE
    && (forall i :: 0 <= i < |ids| ==> ids[i] < |s.eventos| && Reclamable(s.eventos[ids[i]], s.ahora))
    && (forall i, j :: 0 <= i < j < |ids| ==> ids[i] != ids[j])
  }

  function ReclamarFilas(eventos: seq<Evento>, ids: seq<nat>, ahora: nat): (r: seq<Evento>)
    requires forall i :: 0 <= i < |ids| ==> ids[i] < |eventos|
    requires forall i, j :: 0 <= i < j < |ids| ==> ids[i] != ids[j]
    ensures |r| == |eventos|
    ensures forall j :: 0 <= j < |eventos| ==>
      r[j] == if j in ids then eventos[j].(bloqueadoEn := Some(ahora), intentos := eventos[j].intentos + 1) else eventos[j]
  {
    if |ids| == 0 then eventos
    else
      var n := |ids| - 1;
      var previas := ReclamarFilas(eventos, ids[..n], ahora);
      assert ids == ids[..n] + [ids[n]];
      previas[ids[n] := previas[ids[n]].(bloqueadoEn := Some(ahora), intentos := previas[ids[n]].intentos + 1)]
  }

  function Trabajos(eventos: seq<Evento>, ids: seq<nat>): (r: seq<Trabajo>)
    requires forall i :: 0 <= i < |ids| ==> ids[i] < |eventos|
    ensures |r| == |ids| && forall i :: 0 <= i < |ids| ==> r[i] == Trabajo(ids[i], eventos[ids[i]].intentos)
  {
    if |ids| == 0 then []
    else Trabajos(eventos, ids[..|ids| - 1]) + [Trabajo(ids[|ids| - 1], eventos[ids[|ids| - 1]].intentos)]
  }

  function Espera(intentos: nat): nat {
    60 * (if intentos >= 6 then 60 else Potencia2(intentos))
  }

  function Potencia2(n: nat): nat {
    if n == 0 then 1 else 2 * Potencia2(n - 1)
  }

  predicate Trabaja(s: Estado, w: WorkerId) {
    w in s.workers && |s.workers[w].cola| > 0 && s.workers[w].cola[0].evento < |s.eventos|
      && s.eventos[s.workers[w].cola[0].evento].doc < |s.docs|
  }

  function Siguiente(workers: map<WorkerId, Worker>, w: WorkerId): map<WorkerId, Worker>
    requires w in workers && |workers[w].cola| > 0
  {
    if |workers[w].cola| == 1 then workers - {w} else workers[w := Worker(workers[w].cola[1..], PorLeer)]
  }

  function ConFase(s: Estado, w: WorkerId, fase: Fase): Estado
    requires w in s.workers
  {
    s.(workers := s.workers[w := s.workers[w].(fase := fase)])
  }

  /** Publish when the document was answered or its attempts ran out, otherwise wait and retry.
      A row already published refuses both, and the tick aborts. */
  function CerrarEvento(s: Estado, w: WorkerId, procesado: bool): Estado
    requires Trabaja(s, w)
  {
    var t := s.workers[w].cola[0];
    var e := s.eventos[t.evento];
    if e.publicado then s.(workers := s.workers - {w})
    else
      var e' := if procesado || t.intentos >= MAX_INTENTOS then e.(publicado := true, bloqueadoEn := None)
                else e.(bloqueadoEn := None, disponibleEn := s.ahora + Espera(t.intentos));
      s.(eventos := s.eventos[t.evento := e'], workers := Siguiente(s.workers, w))
  }

  function Dar(s: Estado, p: Paso): Estado {
    match p
    case Pasar(segundos) => s.(ahora := s.ahora + segundos)
    case Emitir => EmitirDoc(s)
    case Reintentar(d) => ReintentarDoc(s, d).GetOr(s)
    case Reclamar(w, ids) =>
      if w in s.workers || !LoteValido(s, ids) then s
      else
        var eventos := ReclamarFilas(s.eventos, ids, s.ahora);
        s.(eventos := eventos, workers := s.workers[w := Worker(Trabajos(eventos, ids), PorLeer)])
    case Leer(w) =>
      if !Trabaja(s, w) || !s.workers[w].fase.PorLeer? then s
      else
        var leido := s.docs[s.eventos[s.workers[w].cola[0].evento].doc];
        ConFase(s, w, if leido in ESTADOS_PROCESABLES then Consultando(leido) else PorCerrar(false))
    case Responder(w, respuesta) =>
      if !Trabaja(s, w) || !s.workers[w].fase.Consultando? then s
      else ConFase(s, w, PorEscribir(s.workers[w].fase.leido, respuesta.GetOr(ERROR), respuesta.Some?))
    case Escribir(w) =>
      if !Trabaja(s, w) || !s.workers[w].fase.PorEscribir? then s
      else
        var f, d := s.workers[w].fase, s.eventos[s.workers[w].cola[0].evento].doc;
        ConFase(s.(docs := s.docs[d := Destino(f.leido, f.pedido)]), w, PorCerrar(f.respondio))
    case Cerrar(w) =>
      if !Trabaja(s, w) || !s.workers[w].fase.PorCerrar? then s else CerrarEvento(s, w, s.workers[w].fase.procesado)
    case Caer(w) => s.(workers := s.workers - {w})
  }

  function Correr(s: Estado, ps: seq<Paso>): Estado {
    if |ps| == 0 then s else Dar(Correr(s, ps[..|ps| - 1]), ps[|ps| - 1])
  }

  // ------------------------------------------------------------------ the transition table

  /** A verdict is recorded exactly when the document was read EN_COLA and the verdict is one the
      table allows from there; a document read in ERROR only goes back to EN_COLA or stays. */
  lemma {:induction false} VeredictoRegistradoSii(leido: EstadoDoc, pedido: EstadoDoc)
    requires leido in ESTADOS_PROCESABLES
    ensures Destino(leido, pedido) == pedido <==>
      if leido == EN_COLA then pedido in {EN_COLA, FIRMADO, ENVIADO, ACEPTADO, RECHAZADO, ERROR} else pedido in {EN_COLA, ERROR}
  {
  }

  /** Writing from what was read is safe, whatever the provider answers, exactly when the stored
      state is still the one read, or the document read in ERROR has only been queued again. */
  lemma {:induction false} EscrituraSeguraSii(leido: EstadoDoc, guardado: EstadoDoc)
    requires leido in ESTADOS_PROCESABLES
    ensures (forall pedido :: EsLegal(guardado, Destino(leido, pedido))) <==>
      if leido == EN_COLA then guardado == EN_COLA else guardado in {ERROR, EN_COLA, BORRADOR}
  {
    assert Destino(EN_COLA, ACEPTADO) == ACEPTADO && Destino(EN_COLA, ERROR) == ERROR && Destino(EN_COLA, FIRMADO) == FIRMADO;
    assert Destino(ERROR, EN_COLA) == EN_COLA && Destino(ERROR, ERROR) == ERROR;
    if leido == EN_COLA && guardado == EN_COLA {
      forall pedido ensures EsLegal(guardado, Destino(leido, pedido)) {
      }
    } else if leido == ERROR && guardado in {ERROR, EN_COLA, BORRADOR} {
      forall pedido ensures EsLegal(guardado, Destino(leido, pedido)) {
      }
    }
  }

  // ------------------------------------------------------------------ one worker

  /** The documents the pipeline can hold: it never reaches the states of observations or voiding. */
  const ALCANZABLES: set<EstadoDoc> := {EN_COLA, FIRMADO, ENVIADO, ACEPTADO, RECHAZADO, ERROR}

  /** What a worker read is still stored, unless a retry has put a document read in ERROR back
      in the queue. */
  predicate LecturaVigente(leido: EstadoDoc, guardado: EstadoDoc) {
    leido in ESTADOS_PROCESABLES && (guardado == leido || (leido == ERROR && guardado == EN_COLA))
  }

  ghost predicate WorkerBien(s: Estado, w: WorkerId)
    requires w in s.workers
  {
    && (forall i :: 0 <= i < |s.workers[w].cola| ==>
          s.workers[w].cola[i].evento < |s.eventos| && s.eventos[s.workers[w].cola[i].evento].doc < |s.docs|)
    && |s.workers[w].cola| > 0
    && var guardado := s.docs[s.eventos[s.workers[w].cola[0].evento].doc];
       match s.workers[w].fase
       case Consultando(leido) => LecturaVigente(leido, guardado)
       case PorEscribir(leido, _, _) => LecturaVigente(leido, guardado)
       case _ => true
  }

  ghost predicate EventosBien(s: Estado) {
    && (forall i :: 0 <= i < |s.eventos| ==> s.eventos[i].doc < |s.docs|)
    && (forall i, j :: 0 <= i < j < |s.eventos| ==> s.eventos[i].doc != s.eventos[j].doc || s.eventos[i].causa != s.eventos[j].causa)
    && (forall d :: 0 <= d < |s.docs| ==> s.docs[d] in ALCANZABLES)
  }

  /** At most one worker runs, and it is the worker `unico`. */
  ghost predicate Bien(s: Estado, unico: WorkerId) {
    && EventosBien(s)
    && s.workers.Keys <= {unico}
    && (unico in s.workers ==> WorkerBien(s, unico))
  }

  predicate DelWorker(p: Paso, unico: WorkerId) {
    match p
    case Reclamar(w, _) => w == unico
    case _ => true
  }

  lemma {:induction false} EscribirMantiene(s: Estado, w: WorkerId, unico: WorkerId)
    requires Bien(s, unico)
    ensures Bien(Dar(s, Escribir(w)), unico)
  {
    if Trabaja(s, w) && s.workers[w].fase.PorEscribir? {
      assert w == unico;
    }
  }

  lemma {:induction false} ReclamarMantiene(s: Estado, w: WorkerId, ids: seq<nat>, unico: WorkerId)
    requires Bien(s, unico) && w == unico
    ensures Bien(Dar(s, Reclamar(w, ids)), unico)
  {
  }

  lemma {:induction false} CerrarMantiene(s: Estado, w: WorkerId, unico: WorkerId)
    requires Bien(s, unico)
    ensures Bien(Dar(s, Cerrar(w)), unico)
  {
  }

  lemma {:induction false} DarMantiene(s: Estado, p: Paso, unico: WorkerId)
    requires Bien(s, unico) && DelWorker(p, unico)
    ensures Bien(Dar(s, p), unico)
  {
    match p
    case Pasar(_) =>
    case Emitir =>
    case Reintentar(d) =>
    case Reclamar(w, ids) => ReclamarMantiene(s, w, ids, unico);
    case Leer(w) =>
    case Responder(w, respuesta) =>
    case Escribir(w) => EscribirMantiene(s, w, unico);
    case Cerrar(w) => CerrarMantiene(s, w, unico);
    case Caer(w) =>
  }

  lemma {:induction false} CorrerMantiene(s: Estado, ps: seq<Paso>, unico: WorkerId)
    requires Bien(s, unico) && forall i :: 0 <= i < |ps| ==> DelWorker(ps[i], unico)
    ensures Bien(Correr(s, ps), unico)
  {
    if |ps| > 0 {
      CorrerMantiene(s, ps[..|ps| - 1], unico);
      DarMantiene(Correr(s, ps[..|ps| - 1]), ps[|ps| - 1], unico);
    }
  }

  /** The document changes at most along an edge of the table, never once it is final, and it is in
      none of the states of observations or voiding. */
  predicate CambioLegal(s: Estado, s': Estado, d: DocId) {
    && |s.docs| <= |s'.docs|
    && (d < |s.docs| ==>
          && EsLegal(s.docs[d], s'.docs[d])
          && (s.docs[d] in ESTADOS_FINALES ==> s'.docs[d] == s.docs[d])
          && s.docs[d] in ALCANZABLES)
  }

  lemma {:induction false} PasoLegal(s: Estado, p: Paso, unico: WorkerId, d: DocId)
    requires Bien(s, unico) && DelWorker(p, unico)
    ensures CambioLegal(s, Dar(s, p), d)
  {
  }

  /** With one worker, in every interleaving of its reads, the provider's answers, its writes, its
      crashes and the retries of users: the next step changes a document only along an edge of
      the table from the state then stored, and never changes a final one; and no document ever
      reaches the states of observations or voiding. */
  lemma {:induction false} CambiosLegales(ps: seq<Paso>, p: Paso, unico: WorkerId, d: DocId)
    requires (forall i :: 0 <= i < |ps| ==> DelWorker(ps[i], unico)) && DelWorker(p, unico)
    ensures CambioLegal(Correr(INICIAL, ps), Dar(Correr(INICIAL, ps), p), d)
  {
    CorrerMantiene(INICIAL, ps, unico);
    PasoLegal(Correr(INICIAL, ps), p, unico, d);
  }

  ghost predicate ConservaFinales(s: Estado, s': Estado) {
    forall d :: 0 <= d < |s.docs| && s.docs[d] in ESTADOS_FINALES ==> d < |s'.docs| && s'.docs[d] == s.docs[d]
  }

  /** What a run leaves of a final document: the document. */
  lemma {:induction false} FinalesFijos(s: Estado, ps: seq<Paso>, unico: WorkerId, d: DocId)
    requires Bien(s, unico) && forall i :: 0 <= i < |ps| ==> DelWorker(ps[i], unico)
    requires d < |s.docs| && s.docs[d] in ESTADOS_FINALES
    ensures d < |Correr(s, ps).docs| && Correr(s, ps).docs[d] == s.docs[d]
  {
    if |ps| > 0 {
      var n := |ps| - 1;
      FinalesFijos(s, ps[..n], unico, d);
      CorrerMantiene(s, ps[..n], unico);
      PasoLegal(Correr(s, ps[..n]), ps[n], unico, d);
    }
  }

  // ------------------------------------------------------------------ attempts

  ghost predicate Acotados(s: Estado, unico: WorkerId) {
    && (forall i :: 0 <= i < |s.eventos| ==> s.eventos[i].intentos <= MAX_INTENTOS)
    && (forall i :: 0 <= i < |s.eventos| && !s.eventos[i].publicado && s.eventos[i].intentos == MAX_INTENTOS ==>
          unico in s.workers && EnCola(s.workers[unico].cola, i))
    && (unico in s.workers ==>
          && (forall k :: 0 <= k < |s.workers[unico].cola| ==>
                var t := s.workers[unico].cola[k];
                t.evento < |s.eventos| && t.intentos == s.eventos[t.evento].intentos && !s.eventos[t.evento].publicado)
          && (forall j, k :: 0 <= j < k < |s.workers[unico].cola| ==>
                s.workers[unico].cola[j].evento != s.workers[unico].cola[k].evento))
  }

  ghost predicate EnCola(cola: seq<Trabajo>, i: nat) {
    exists k :: 0 <= k < |cola| && cola[k].evento == i
  }

  lemma {:induction false} ReclamarAcotados(s: Estado, ids: seq<nat>, unico: WorkerId)
    requires Bien(s, unico) && Acotados(s, unico) && unico !in s.workers && LoteValido(s, ids)
    ensures Acotados(Dar(s, Reclamar(unico, ids)), unico)
  {
    var s' := Dar(s, Reclamar(unico, ids));
    forall i | 0 <= i < |s'.eventos| && !s'.eventos[i].publicado && s'.eventos[i].intentos == MAX_INTENTOS
      ensures EnCola(s'.workers[unico].cola, i) {
      assert i in ids;
      var k :| 0 <= k < |ids| && ids[k] == i;
      assert s'.workers[unico].cola[k].evento == i;
    }
    forall i | 0 <= i < |s'.eventos| ensures s'.eventos[i].intentos <= MAX_INTENTOS {
      if i in ids {
        assert Reclamable(s.eventos[i], s.ahora);
      }
    }
  }

  lemma {:induction false} CerrarAcotados(s: Estado, unico: WorkerId)
    requires Bien(s, unico) && Acotados(s, unico) && Trabaja(s, unico) && s.workers[unico].fase.PorCerrar?
    ensures Acotados(Dar(s, Cerrar(unico)), unico)
  {
    var s', cola := Dar(s, Cerrar(unico)), s.workers[unico].cola;
    forall i | 0 <= i < |s'.eventos| && !s'.eventos[i].publicado && s'.eventos[i].intentos == MAX_INTENTOS
      ensures unico in s'.workers && EnCola(s'.workers[unico].cola, i) {
      assert i != cola[0].evento;
      assert EnCola(cola, i);
      var k :| 0 <= k < |cola| && cola[k].evento == i;
      assert cola[1..][k - 1].evento == i;
    }
  }

  lemma {:induction false} DarAcotados(s: Estado, p: Paso, unico: WorkerId)
    requires Bien(s, unico) && Acotados(s, unico) && DelWorker(p, unico) && !p.Caer?
    ensures Acotados(Dar(s, p), unico)
  {
    match p
    case Reclamar(w, ids) =>
      if w !in s.workers && LoteValido(s, ids) {
        ReclamarAcotados(s, ids, unico);
      }
    case Cerrar(w) =>
      if Trabaja(s, w) && s.workers[w].fase.PorCerrar? {
        assert w == unico;
        CerrarAcotados(s, unico);
      }
    case _ =>
  }

  lemma {:induction false} CorrerAcotados(s: Estado, ps: seq<Paso>, unico: WorkerId)
    requires Bien(s, unico) && Acotados(s, unico) && forall i :: 0 <= i < |ps| ==> DelWorker(ps[i], unico) && !ps[i].Caer?
    ensures Acotados(Correr(s, ps), unico)
  {
    if |ps| > 0 {
      CorrerAcotados(s, ps[..|ps| - 1], unico);
      CorrerMantiene(s, ps[..|ps| - 1], unico);
      DarAcotados(Correr(s, ps[..|ps| - 1]), ps[|ps| - 1], unico);
    }
  }

  /** With one worker that never crashes, no event is claimed more than five times. */
  lemma {:induction false} IntentosAcotados(ps: seq<Paso>, unico: WorkerId, i: nat)
    requires forall j :: 0 <= j < |ps| ==> DelWorker(ps[j], unico) && !ps[j].Caer?
    requires i < |Correr(INICIAL, ps).eventos|
    ensures Correr(INICIAL, ps).eventos[i].intentos <= 5
  {
    CorrerAcotados(INICIAL, ps, unico);
  }

  // ------------------------------------------------------------------ retries

  lemma {:induction false} EventosCrecen(s: Estado, p: Paso, d: DocId, c: Causa)
    requires Encolado(s.eventos, d, c)
    ensures Encolado(Dar(s, p).eventos, d, c)
  {
    var i :| 0 <= i < |s.eventos| && s.eventos[i].doc == d && s.eventos[i].causa == c;
    assert Dar(s, p).eventos[i].doc == d && Dar(s, p).eventos[i].causa == c;
  }

  lemma {:induction false} EncoladoQueda(s: Estado, ps: seq<Paso>, d: DocId, c: Causa)
    requires Encolado(s.eventos, d, c)
    ensures Encolado(Correr(s, ps).eventos, d, c)
  {
    if |ps| > 0 {
      EncoladoQueda(s, ps[..|ps| - 1], d, c);
      EventosCrecen(Correr(s, ps[..|ps| - 1]), ps[|ps| - 1], d, c);
    }
  }

  /** A document is retried at most once: after a retry that succeeds, every later one is refused,
      whatever happens in between and however many workers run. */
  lemma {:induction false} ReintentoUnaVez(s: Estado, d: DocId, ps: seq<Paso>)
    requires ReintentarDoc(s, d).Ok?
    ensures ReintentarDoc(Correr(ReintentarDoc(s, d).value, ps), d).Err?
  {
    var s1 := ReintentarDoc(s, d).value;
    assert s1.eventos[|s.eventos|].doc == d && s1.eventos[|s.eventos|].causa == Reintento;
    EncoladoQueda(s1, ps, d, Reintento);
  }

  // ------------------------------------------------------------------ two workers

  /** A slow worker, and a second one that takes over its event when the lease runs out. */
  const CARRERA: seq<Paso> :=
    [Emitir, Reclamar(1, [0]), Leer(1), Pasar(121), Reclamar(2, [0]), Leer(2), Responder(2, Some(ACEPTADO)), Escribir(2),
     Responder(1, None), Escribir(1)]

  function Momento(k: nat): Estado {
    var ahora := if k < 4 then 0 else 121;
    var docs := if k == 0 then [] else [if k < 8 then EN_COLA else if k < 10 then ACEPTADO else ERROR];
    var eventos := if k == 0 then [] else
      [Evento(0, Emision, if k < 2 then 0 else if k < 5 then 1 else 2, 0,
              if k < 2 then None else if k < 5 then Some(0) else Some(121), false)];
    var w1 := Worker([Trabajo(0, 1)], if k < 3 then PorLeer else if k < 9 then Consultando(EN_COLA)
                                      else if k < 10 then PorEscribir(EN_COLA, ERROR, false) else PorCerrar(false));
    var w2 := Worker([Trabajo(0, 2)], if k < 6 then PorLeer else if k < 7 then Consultando(EN_COLA)
                                      else if k < 8 then PorEscribir(EN_COLA, ACEPTADO, true) else PorCerrar(true));
    Estado(ahora, docs, eventos, if k < 2 then map[] else if k < 5 then map[1 := w1] else map[1 := w1, 2 := w2])
  }

  lemma {:induction false} ReclamarUno(e: Evento, ahora: nat)
    ensures ReclamarFilas([e], [0], ahora) == [e.(bloqueadoEn := Some(ahora), intentos := e.intentos + 1)]
    ensures Trabajos([e], [0]) == [Trabajo(0, e.intentos)]
  {
    assert [0][..0] == [];
  }

  lemma {:induction false} ReclamarSolo(s: Estado, e: Evento, w: WorkerId)
    requires s.eventos == [e] && Reclamable(e, s.ahora) && w !in s.workers
    ensures var e' := e.(bloqueadoEn := Some(s.ahora), intentos := e.intentos + 1);
      Dar(s, Reclamar(w, [0])) == s.(eventos := [e'], workers := s.workers[w := Worker([Trabajo(0, e.intentos + 1)], PorLeer)])
  {
    ReclamarUno(e, s.ahora);
    ReclamarUno(e.(bloqueadoEn := Some(s.ahora), intentos := e.intentos + 1), s.ahora);
    assert LoteValido(s, [0]);
  }

  lemma {:induction false} CarreraReclama(k: nat)
    requires k == 1 || k == 4
    ensures Dar(Momento(k), CARRERA[k]) == Momento(k + 1)
  {
    ReclamarSolo(Momento(k), Momento(k).eventos[0], if k == 1 then 1 else 2);
  }

  lemma {:induction false} CarreraEscribe(k: nat)
    requires k == 7 || k == 9
    ensures Dar(Momento(k), CARRERA[k]) == Momento(k + 1)
  {
    assert Dar(Momento(k), CARRERA[k]).workers == Momento(k + 1).workers;
    assert Dar(Momento(k), CARRERA[k]).docs == Momento(k + 1).docs;
  }

  lemma {:induction false} CarreraPaso(k: nat)
    requires k < 10
    ensures Dar(Momento(k), CARRERA[k]) == Momento(k + 1)
  {
    if k == 1 || k == 4 {
      CarreraReclama(k);
    } else if k == 7 || k == 9 {
      CarreraEscribe(k);
    }
  }

  lemma {:induction false} CarreraCorre(k: nat)
    requires k <= 10
    ensures Correr(INICIAL, CARRERA[..k]) == Momento(k)
  {
    if k > 0 {
      CarreraCorre(k - 1);
      CarreraPaso(k - 1);
      assert CARRERA[..k][..k - 1] == CARRERA[..k - 1];
    }
  }

  /** Two workers break it: the slower one, whose lease ran out, writes its failure over a document
      the other had already got accepted. */
  lemma {:induction false} DosWorkersPisanElVeredicto()
    ensures Correr(INICIAL, CARRERA[..8]).docs == [ACEPTADO]
    ensures Correr(INICIAL, CARRERA).docs == [ERROR] && !EsLegal(ACEPTADO, ERROR)
  {
    CarreraCorre(8);
    CarreraCorre(10);
    assert CARRERA[..10] == CARRERA;
  }
}
