/** The fiscal worker does not give up early and does not get stuck: when an event is published, when it
    waits and for how long, who may claim it, and that every document can still be answered. Any number of
    workers, crashes included. */
module FiscalProgreso {
  import opened Comun
  import opened Fiscal

  // ------------------------------------------------------------------ where each state is reached from

  /** The table of transitions read by columns. */
  lemma {:induction false} LlegadasDe(e: EstadoDoc)
    ensures !PuedeTransicionar(e, BORRADOR)
    ensures PuedeTransicionar(e, EN_COLA) <==> e == BORRADOR || e == RECHAZADO || e == ERROR
    ensures PuedeTransicionar(e, FIRMADO) <==> e == EN_COLA
    ensures PuedeTransicionar(e, ENVIADO) <==> e == EN_COLA || e == FIRMADO
    ensures PuedeTransicionar(e, ACEPTADO) <==> e == EN_COLA || e == ENVIADO
    ensures PuedeTransicionar(e, ACEPTADO_CON_OBSERVACIONES) <==> e == ENVIADO
    ensures PuedeTransicionar(e, RECHAZADO) <==> e == EN_COLA || e == ENVIADO
    ensures PuedeTransicionar(e, ERROR) <==> e in {BORRADOR, EN_COLA, FIRMADO, ENVIADO, BAJA_SOLICITADA}
    ensures PuedeTransicionar(e, BAJA_SOLICITADA) <==> e == ACEPTADO || e == ACEPTADO_CON_OBSERVACIONES
    ensures PuedeTransicionar(e, ANULADO) <==> e == BAJA_SOLICITADA
  {
  }

  /** A user can send a document again exactly when it is a draft, rejected or in error and was not sent
      again before; it then waits in the queue with an event of its own that can be claimed at once. */
  lemma {:induction false} ReintentarSii(s: Estado, d: DocId)
    ensures ReintentarDoc(s, d).Ok? <==>
      && d < |s.docs| && s.docs[d] in {BORRADOR, RECHAZADO, ERROR}
      && forall i :: 0 <= i < |s.eventos| && s.eventos[i].doc == d ==> s.eventos[i].causa != Reintento
    ensures ReintentarDoc(s, d).Ok? ==>
      var s', n := ReintentarDoc(s, d).value, |s.eventos|;
      && s'.docs == s.docs[d := EN_COLA] && |s'.eventos| == n + 1 && s'.eventos[..n] == s.eventos
      && s'.eventos[n].doc == d && s'.eventos[n].causa == Reintento && s'.eventos[n].intentos == 0
      && Reclamable(s'.eventos[n], s'.ahora)
  {
    if d < |s.docs| {
      LlegadasDe(s.docs[d]);
    }
  }

  // ------------------------------------------------------------------ waiting

  /** One minute after no attempt, twice as long after each one more, and never more than an hour. */
  lemma {:induction false} EsperaDobla(n: nat)
    ensures Espera(0) == 60
    ensures Espera(n + 1) == if 2 * Espera(n) <= 3600 then 2 * Espera(n) else 3600
  {
    if n <= 5 {
      assert Potencia2(0) == 1 && Potencia2(1) == 2 && Potencia2(2) == 4;
      assert Potencia2(3) == 8 && Potencia2(4) == 16 && Potencia2(5) == 32;
    }
  }

  /** A worker that has finished with an event publishes it exactly when the provider answered or the claim
      was the fifth; otherwise the row is free again after its wait, and nothing else of it changes. */
  lemma {:induction false} CierreExacto(s: Estado, w: WorkerId)
    requires Trabaja(s, w) && s.workers[w].fase.PorCerrar? && !s.eventos[s.workers[w].cola[0].evento].publicado
    ensures var t, s' := s.workers[w].cola[0], Dar(s, Cerrar(w));
      var e, e' := s.eventos[t.evento], s'.eventos[t.evento];
      && s'.docs == s.docs && |s'.eventos| == |s.eventos|
      && (forall i :: 0 <= i < |s.eventos| && i != t.evento ==> s'.eventos[i] == s.eventos[i])
      && (e'.publicado <==> s.workers[w].fase.procesado || t.intentos >= 5)
      && e'.bloqueadoEn == None && e'.intentos == e.intentos && e'.doc == e.doc && e'.causa == e.causa
      && e'.disponibleEn == (if e'.publicado then e.disponibleEn else s.ahora + Espera(t.intentos))
      && (!e'.publicado ==> forall hora: nat :: hora >= s.ahora ==> (Reclamable(e', hora) <==> hora >= s.ahora + Espera(t.intentos)))
  {
  }

  /** A claim takes events that are due, not published and held by nobody, at most ten, leases them from now
      and counts one attempt on each. */
  lemma {:induction false} ReclamoExacto(s: Estado, w: WorkerId, ids: seq<nat>)
    requires w !in s.workers && LoteValido(s, ids)
    ensures var s' := Dar(s, Reclamar(w, ids));
      && 1 <= |ids| <= 10 && s'.docs == s.docs && |s'.eventos| == |s.eventos|
      && w in s'.workers && |s'.workers[w].cola| == |ids| && s'.workers[w].fase == PorLeer
      && (forall k :: 0 <= k < |ids| ==>
            && !s.eventos[ids[k]].publicado && s.eventos[ids[k]].disponibleEn <= s.ahora
            && s'.eventos[ids[k]].bloqueadoEn == Some(s.ahora) && s'.eventos[ids[k]].intentos == s.eventos[ids[k]].intentos + 1
            && s'.workers[w].cola[k] == Trabajo(ids[k], s.eventos[ids[k]].intentos + 1))
      && (forall j :: 0 <= j < |s.eventos| && j !in ids ==> s'.eventos[j] == s.eventos[j])
  {
    var s' := Dar(s, Reclamar(w, ids));
    forall k | 0 <= k < |ids|
      ensures && !s.eventos[ids[k]].publicado && s.eventos[ids[k]].disponibleEn <= s.ahora
              && s'.eventos[ids[k]].bloqueadoEn == Some(s.ahora) && s'.eventos[ids[k]].intentos == s.eventos[ids[k]].intentos + 1
              && s'.workers[w].cola[k] == Trabajo(ids[k], s.eventos[ids[k]].intentos + 1) {
      assert ids[k] in ids;
      assert Reclamable(s.eventos[ids[k]], s.ahora);
    }
  }

  // ------------------------------------------------------------------ why an event is published

  /** In state s the provider answers worker p.worker about event i. */
  predicate Contesta(s: Estado, p: Paso, i: nat) {
    p.Responder? && p.respuesta.Some? && Trabaja(s, p.worker) && s.workers[p.worker].fase.Consultando?
      && s.workers[p.worker].cola[0].evento == i
  }

  predicate Contestado(ps: seq<Paso>, i: nat) {
    exists n :: 0 <= n < |ps| && Contesta(Correr(INICIAL, ps[..n]), ps[n], i)
  }

  lemma {:induction false} ContestadoSigue(ps: seq<Paso>, i: nat)
    requires |ps| > 0 && Contestado(ps[..|ps| - 1], i)
    ensures Contestado(ps, i)
  {
    var m := |ps| - 1;
    var n :| 0 <= n < m && Contesta(Correr(INICIAL, ps[..m][..n]), ps[..m][n], i);
    assert ps[..m][..n] == ps[..n];
  }

  /** The worker has an answer of the provider for the first event of its queue. */
  predicate TieneRespuesta(k: Worker) {
    (k.fase.PorEscribir? && k.fase.respondio) || (k.fase.PorCerrar? && k.fase.procesado)
  }

  ghost predicate ColaHonesta(s: Estado, w: WorkerId)
    requires w in s.workers
  {
    && |s.workers[w].cola| > 0
    && forall k :: 0 <= k < |s.workers[w].cola| ==>
         var t := s.workers[w].cola[k];
         t.evento < |s.eventos| && t.intentos <= s.eventos[t.evento].intentos
  }

  ghost predicate Honesto(s: Estado) {
    && (forall i :: 0 <= i < |s.eventos| ==> s.eventos[i].doc < |s.docs|)
    && (forall w :: w in s.workers ==> ColaHonesta(s, w))
  }

  /** Rows are never taken away, their document stays, and attempts are never uncounted. */
  lemma {:induction false} FilasCrecen(s: Estado, p: Paso)
    requires Honesto(s)
    ensures var s' := Dar(s, p);
      && |s.docs| <= |s'.docs| && |s.eventos| <= |s'.eventos|
      && (forall i :: 0 <= i < |s'.eventos| ==> s'.eventos[i].doc < |s'.docs|)
      && (forall i :: 0 <= i < |s.eventos| ==> s'.eventos[i].intentos >= s.eventos[i].intentos)
  {
  }

  /** A worker has the queue it had, the rest of it, or what it has just claimed. */
  lemma {:induction false} ColasSiguen(s: Estado, p: Paso, w: WorkerId)
    requires w in Dar(s, p).workers
    ensures var cola := Dar(s, p).workers[w].cola;
      || (w in s.workers && cola == s.workers[w].cola)
      || (w in s.workers && |s.workers[w].cola| > 1 && cola == s.workers[w].cola[1..])
      || (p == Reclamar(w, p.ids) && LoteValido(s, p.ids) && cola == Trabajos(Dar(s, p).eventos, p.ids))
  {
  }

  lemma {:induction false} DarHonesto(s: Estado, p: Paso)
    requires Honesto(s)
    ensures Honesto(Dar(s, p))
  {
    FilasCrecen(s, p);
    forall w | w in Dar(s, p).workers ensures ColaHonesta(Dar(s, p), w) {
      ColasSiguen(s, p, w);
      if w in s.workers {
        assert ColaHonesta(s, w);
      }
    }
  }

  lemma {:induction false} CorrerHonesto(ps: seq<Paso>)
    ensures Honesto(Correr(INICIAL, ps))
  {
    if |ps| > 0 {
      CorrerHonesto(ps[..|ps| - 1]);
      DarHonesto(Correr(INICIAL, ps[..|ps| - 1]), ps[|ps| - 1]);
    }
  }

  /** The only step that publishes an event is its worker closing it, with an answer or at the fifth claim. */
  lemma {:induction false} QuienPublica(s: Estado, p: Paso, i: nat)
    requires Honesto(s) && i < |s.eventos| && !s.eventos[i].publicado && Dar(s, p).eventos[i].publicado
    ensures p.Cerrar? && Trabaja(s, p.worker) && s.workers[p.worker].cola[0].evento == i
    ensures TieneRespuesta(s.workers[p.worker]) || s.eventos[i].intentos >= 5
  {
    if p.Cerrar? && Trabaja(s, p.worker) {
      assert ColaHonesta(s, p.worker);
    }
  }

  /** A worker that comes to have an answer was answered in that very step, or had it before. */
  lemma {:induction false} QuienResponde(s: Estado, p: Paso, w: WorkerId)
    requires Honesto(s) && w in Dar(s, p).workers && TieneRespuesta(Dar(s, p).workers[w])
    ensures var i := Dar(s, p).workers[w].cola[0].evento;
      Contesta(s, p, i) || (w in s.workers && TieneRespuesta(s.workers[w]) && s.workers[w].cola[0].evento == i)
  {
    if w in s.workers {
      assert ColaHonesta(s, w);
    }
  }

  lemma {:induction false} RespuestaContestada(ps: seq<Paso>, w: WorkerId)
    requires var s := Correr(INICIAL, ps); w in s.workers && TieneRespuesta(s.workers[w]) && |s.workers[w].cola| > 0
    ensures Contestado(ps, Correr(INICIAL, ps).workers[w].cola[0].evento)
  {
    if |ps| > 0 {
      var n := |ps| - 1;
      var s, i := Correr(INICIAL, ps[..n]), Correr(INICIAL, ps).workers[w].cola[0].evento;
      CorrerHonesto(ps[..n]);
      QuienResponde(s, ps[n], w);
      if !Contesta(s, ps[n], i) {
        RespuestaContestada(ps[..n], w);
        ContestadoSigue(ps, i);
      }
    }
  }

  lemma {:induction false} PublicaConMotivo(ps: seq<Paso>, i: nat)
    requires |ps| > 0 && var s := Correr(INICIAL, ps[..|ps| - 1]);
      i < |s.eventos| && !s.eventos[i].publicado && Dar(s, ps[|ps| - 1]).eventos[i].publicado
    ensures Contestado(ps, i) || Correr(INICIAL, ps[..|ps| - 1]).eventos[i].intentos >= 5
  {
    var n := |ps| - 1;
    var s := Correr(INICIAL, ps[..n]);
    CorrerHonesto(ps[..n]);
    QuienPublica(s, ps[n], i);
    if TieneRespuesta(s.workers[ps[n].worker]) {
      RespuestaContestada(ps[..n], ps[n].worker);
      ContestadoSigue(ps, i);
    }
  }

  /** In every run, whatever the number of workers: an event is published only after the provider answered
      about it, or after it was claimed five times. */
  lemma {:induction false} PublicadoConMotivo(ps: seq<Paso>, i: nat)
    ensures var s := Correr(INICIAL, ps);
      i < |s.eventos| && s.eventos[i].publicado ==> Contestado(ps, i) || s.eventos[i].intentos >= 5
  {
    if |ps| > 0 {
      var n := |ps| - 1;
      var s := Correr(INICIAL, ps[..n]);
      PublicadoConMotivo(ps[..n], i);
      if i < |s.eventos| && Dar(s, ps[n]).eventos[i].publicado {
        if s.eventos[i].publicado {
          if Contestado(ps[..n], i) {
            ContestadoSigue(ps, i);
          }
        } else {
          PublicaConMotivo(ps, i);
        }
      }
    }
  }

  // ------------------------------------------------------------------ leases

  /** Somebody closes event i. */
  predicate Cierra(s: Estado, p: Paso, i: nat) {
    p.Cerrar? && Trabaja(s, p.worker) && s.workers[p.worker].cola[0].evento == i
  }

  predicate NadieCierra(s: Estado, ps: seq<Paso>, i: nat) {
    |ps| > 0 ==> NadieCierra(s, ps[..|ps| - 1], i) && !Cierra(Correr(s, ps[..|ps| - 1]), ps[|ps| - 1], i)
  }

  /** A claimed event that nobody closes is claimed by nobody else for two minutes. */
  lemma {:induction false} ArrendamientoExclusivo(s: Estado, ps: seq<Paso>, i: nat, t: nat)
    requires i < |s.eventos| && s.eventos[i].bloqueadoEn == Some(t) && NadieCierra(s, ps, i)
    ensures var s' := Correr(s, ps);
      && i < |s'.eventos|
      && (s'.ahora <= t + 120 ==>
            && s'.eventos[i].bloqueadoEn == Some(t) && s'.eventos[i].intentos == s.eventos[i].intentos
            && !Reclamable(s'.eventos[i], s'.ahora))
  {
    if |ps| > 0 {
      ArrendamientoExclusivo(s, ps[..|ps| - 1], i, t);
    }
  }

  // ------------------------------------------------------------------ progress

  lemma {:induction false} ReclamaUno(s: Estado, w: WorkerId, i: nat)
    requires i < |s.eventos| && Reclamable(s.eventos[i], s.ahora) && w !in s.workers
    ensures var s' := Dar(s, Reclamar(w, [i]));
      && s'.workers == s.workers[w := Worker([Trabajo(i, s.eventos[i].intentos + 1)], PorLeer)]
      && s'.docs == s.docs && s'.ahora == s.ahora
      && s'.eventos == s.eventos[i := s.eventos[i].(bloqueadoEn := Some(s.ahora), intentos := s.eventos[i].intentos + 1)]
  {
    assert LoteValido(s, [i]);
    var eventos := ReclamarFilas(s.eventos, [i], s.ahora);
    assert eventos == s.eventos[i := s.eventos[i].(bloqueadoEn := Some(s.ahora), intentos := s.eventos[i].intentos + 1)];
    assert Trabajos(eventos, [i]) == [Trabajo(i, s.eventos[i].intentos + 1)];
  }

  /** What is left of an event that waits. */
  predicate PuedeReclamarse(e: Evento, ahora: nat) {
    && !e.publicado && ahora >= e.disponibleEn
    && (e.bloqueadoEn.Some? ==> ahora > e.bloqueadoEn.value + 120)
  }

  /** Claims the event alone, reads its document, is answered, writes and closes. */
  function Atender(s: Estado, w: WorkerId, i: nat, segundos: nat, respuesta: Option<EstadoDoc>): Estado {
    var leido := Dar(Dar(Dar(s, Pasar(segundos)), Reclamar(w, [i])), Leer(w));
    Dar(Dar(Dar(leido, Responder(w, respuesta)), Escribir(w)), Cerrar(w))
  }

  /** What that leaves: the answer recorded as the table allows, or the document in error; and the event
      published, or free again after its wait. */
  predicate Atendido(s: Estado, s': Estado, i: nat, segundos: nat, respuesta: Option<EstadoDoc>)
    requires i < |s.eventos| && s.eventos[i].doc < |s.docs|
  {
    var d := s.eventos[i].doc;
    var leido, pedido := s.docs[d], respuesta.GetOr(ERROR);
    && i < |s'.eventos| && s'.eventos[i].bloqueadoEn == None && s'.eventos[i].intentos == s.eventos[i].intentos + 1
    && s'.docs == (if leido in {EN_COLA, ERROR} && PuedeTransicionar(leido, pedido) then s.docs[d := pedido] else s.docs)
    && (s'.eventos[i].publicado <==> (leido in {EN_COLA, ERROR} && respuesta.Some?) || s.eventos[i].intentos + 1 >= 5)
    && (!s'.eventos[i].publicado ==> s'.eventos[i].disponibleEn == s.ahora + segundos + Espera(s.eventos[i].intentos + 1))
  }

  /** No event is ever stuck: from any reachable state an idle worker can claim any event that is not
      published, once its wait and its lease have run out, and take it to its end. If its document still
      waits for an answer and the provider gives one, the answer is recorded and the event published. */
  lemma {:induction false} NuncaAtascado(ps: seq<Paso>, w: WorkerId, i: nat, segundos: nat, respuesta: Option<EstadoDoc>)
    requires var s := Correr(INICIAL, ps);
      i < |s.eventos| && w !in s.workers && PuedeReclamarse(s.eventos[i], s.ahora + segundos)
    ensures var s := Correr(INICIAL, ps);
      s.eventos[i].doc < |s.docs| && Atendido(s, Atender(s, w, i, segundos, respuesta), i, segundos, respuesta)
  {
    CorrerHonesto(ps);
    AtiendeUno(Correr(INICIAL, ps), w, i, segundos, respuesta);
  }

  /** A worker with one event at hand reads its document, is answered and writes. */
  lemma {:induction false} AntesDeCerrar(s: Estado, w: WorkerId, t: Trabajo, respuesta: Option<EstadoDoc>)
    requires Trabaja(s, w) && s.workers[w] == Worker([t], PorLeer)
    ensures var s', d := Dar(Dar(Dar(s, Leer(w)), Responder(w, respuesta)), Escribir(w)), s.eventos[t.evento].doc;
      var leido := s.docs[d];
      && s'.ahora == s.ahora && s'.eventos == s.eventos && Trabaja(s', w)
      && s'.workers[w] == Worker([t], PorCerrar(leido in {EN_COLA, ERROR} && respuesta.Some?))
      && s'.docs == if leido in {EN_COLA, ERROR} && PuedeTransicionar(leido, respuesta.GetOr(ERROR))
                    then s.docs[d := respuesta.GetOr(ERROR)] else s.docs
  {
    var s1 := Dar(s, Leer(w));
    assert Trabaja(s1, w);
    var s2 := Dar(s1, Responder(w, respuesta));
    assert Trabaja(s2, w);
  }

  lemma {:induction false} AtiendeUno(s: Estado, w: WorkerId, i: nat, segundos: nat, respuesta: Option<EstadoDoc>)
    requires Honesto(s) && i < |s.eventos| && w !in s.workers && PuedeReclamarse(s.eventos[i], s.ahora + segundos)
    ensures Atendido(s, Atender(s, w, i, segundos, respuesta), i, segundos, respuesta)
  {
    var s1 := Dar(s, Pasar(segundos));
    ReclamaUno(s1, w, i);
    var s2 := Dar(s1, Reclamar(w, [i]));
    AntesDeCerrar(s2, w, Trabajo(i, s.eventos[i].intentos + 1), respuesta);
    CierreExacto(Dar(Dar(Dar(s2, Leer(w)), Responder(w, respuesta)), Escribir(w)), w);
  }
  // ------------------------------------------------------------------ no document is forgotten

  /** The verdicts the table takes from a document in the queue. */
  const VEREDICTOS: set<EstadoDoc> := {FIRMADO, ENVIADO, ACEPTADO, RECHAZADO, ERROR}

  predicate Admite(p: Paso) {
    p.Responder? && p.respuesta.Some? ==> p.respuesta.value in VEREDICTOS
  }

  /** Some event of the document, other than `salvo`, is still to be published. */
  ghost predicate TienePendiente(s: Estado, d: DocId, salvo: int) {
    exists i :: 0 <= i < |s.eventos| && i != salvo && s.eventos[i].doc == d && !s.eventos[i].publicado
  }

  ghost predicate ConPendientes(s: Estado) {
    forall d :: 0 <= d < |s.docs| && s.docs[d] == EN_COLA ==> TienePendiente(s, d, -1)
  }

  /** A worker about to close an event does not leave its document waiting for nobody. */
  ghost predicate CierraSinOlvidar(s: Estado, w: WorkerId)
    requires Bien(s, w)
  {
    w in s.workers ==>
      var e := s.workers[w].cola[0].evento;
      match s.workers[w].fase
      case PorEscribir(_, pedido, _) => pedido in VEREDICTOS
      case PorCerrar(_) => s.docs[s.eventos[e].doc] == EN_COLA ==> TienePendiente(s, s.eventos[e].doc, e)
      case _ => true
  }

  lemma {:induction false} PendienteSigue(s: Estado, s': Estado, d: DocId, salvo: int)
    requires TienePendiente(s, d, salvo) && |s.eventos| <= |s'.eventos|
    requires forall i :: 0 <= i < |s.eventos| ==> s'.eventos[i].doc == s.eventos[i].doc
    requires forall i :: 0 <= i < |s.eventos| && i != salvo ==> s'.eventos[i].publicado == s.eventos[i].publicado
    ensures TienePendiente(s', d, salvo) && TienePendiente(s', d, -1)
  {
    var i :| 0 <= i < |s.eventos| && i != salvo && s.eventos[i].doc == d && !s.eventos[i].publicado;
    assert s'.eventos[i].doc == d && !s'.eventos[i].publicado;
  }

  lemma {:induction false} CerrarNoOlvida(s: Estado, w: WorkerId)
    requires Bien(s, w) && ConPendientes(s) && CierraSinOlvidar(s, w) && Trabaja(s, w) && s.workers[w].fase.PorCerrar?
    ensures ConPendientes(Dar(s, Cerrar(w))) && Bien(Dar(s, Cerrar(w)), w) && CierraSinOlvidar(Dar(s, Cerrar(w)), w)
  {
    var s', e := Dar(s, Cerrar(w)), s.workers[w].cola[0].evento;
    CerrarMantiene(s, w, w);
    forall d | 0 <= d < |s'.docs| && s'.docs[d] == EN_COLA ensures TienePendiente(s', d, -1) {
      if d == s.eventos[e].doc {
        PendienteSigue(s, s', d, e);
      } else {
        var i :| 0 <= i < |s.eventos| && s.eventos[i].doc == d && !s.eventos[i].publicado;
        assert s'.eventos[i] == s.eventos[i];
      }
    }
  }

  lemma {:induction false} ReintentarNoOlvida(s: Estado, d: DocId, w: WorkerId)
    requires Bien(s, w) && ConPendientes(s) && CierraSinOlvidar(s, w) && ReintentarDoc(s, d).Ok?
    ensures ConPendientes(Dar(s, Reintentar(d))) && Bien(Dar(s, Reintentar(d)), w) && CierraSinOlvidar(Dar(s, Reintentar(d)), w)
  {
    var s', n := Dar(s, Reintentar(d)), |s.eventos|;
    DarMantiene(s, Reintentar(d), w);
    assert s'.eventos[n].doc == d && !s'.eventos[n].publicado;
    forall c | 0 <= c < |s'.docs| && s'.docs[c] == EN_COLA && c != d ensures TienePendiente(s', c, -1) {
      PendienteSigue(s, s', c, -1);
    }
    if w in s.workers {
      var e := s.workers[w].cola[0].evento;
      if s.eventos[e].doc != d && s.workers[w].fase.PorCerrar? && s.docs[s.eventos[e].doc] == EN_COLA {
        PendienteSigue(s, s', s.eventos[e].doc, e);
      }
    }
  }

  /** Nothing is published, nothing is put back in the queue, and what a worker is closing stays. */
  lemma {:induction false} QuietoNoOlvida(s: Estado, s': Estado, w: WorkerId)
    requires Bien(s, w) && ConPendientes(s) && CierraSinOlvidar(s, w) && Bien(s', w)
    requires |s'.docs| == |s.docs| && forall d :: 0 <= d < |s.docs| && s'.docs[d] == EN_COLA ==> s.docs[d] == EN_COLA
    requires |s'.eventos| == |s.eventos|
    requires forall i :: 0 <= i < |s.eventos| ==> s'.eventos[i].doc == s.eventos[i].doc && s'.eventos[i].publicado == s.eventos[i].publicado
    ensures ConPendientes(s')
    ensures w in s.workers && s.workers[w].fase.PorCerrar? && w in s'.workers && s'.workers[w] == s.workers[w] ==> CierraSinOlvidar(s', w)
  {
    forall d | 0 <= d < |s'.docs| && s'.docs[d] == EN_COLA ensures TienePendiente(s', d, -1) {
      PendienteSigue(s, s', d, -1);
    }
    if w in s.workers && s.workers[w].fase.PorCerrar? {
      var e := s.workers[w].cola[0].evento;
      if s.docs[s.eventos[e].doc] == EN_COLA {
        PendienteSigue(s, s', s.eventos[e].doc, e);
      }
    }
  }

  lemma {:induction false} EscribirNoOlvida(s: Estado, w: WorkerId)
    requires Bien(s, w) && ConPendientes(s) && CierraSinOlvidar(s, w) && Trabaja(s, w) && s.workers[w].fase.PorEscribir?
    ensures ConPendientes(Dar(s, Escribir(w))) && Bien(Dar(s, Escribir(w)), w) && CierraSinOlvidar(Dar(s, Escribir(w)), w)
  {
    EscribirMantiene(s, w, w);
    QuietoNoOlvida(s, Dar(s, Escribir(w)), w);
  }

  /** The other steps: they publish nothing, put no document back in the queue and write none. */
  lemma {:induction false} RestoNoOlvida(s: Estado, p: Paso, w: WorkerId)
    requires Bien(s, w) && ConPendientes(s) && CierraSinOlvidar(s, w) && DelWorker(p, w) && Admite(p)
    requires !p.Cerrar? && !p.Reintentar? && !p.Emitir? && !p.Escribir?
    ensures ConPendientes(Dar(s, p)) && Bien(Dar(s, p), w) && CierraSinOlvidar(Dar(s, p), w)
  {
    DarMantiene(s, p, w);
    QuietoNoOlvida(s, Dar(s, p), w);
  }

  lemma {:induction false} EmitirNoOlvida(s: Estado, w: WorkerId)
    requires Bien(s, w) && ConPendientes(s) && CierraSinOlvidar(s, w)
    ensures ConPendientes(Dar(s, Emitir)) && Bien(Dar(s, Emitir), w) && CierraSinOlvidar(Dar(s, Emitir), w)
  {
    var s', n := Dar(s, Emitir), |s.docs|;
    DarMantiene(s, Emitir, w);
    forall d | 0 <= d < |s'.docs| && s'.docs[d] == EN_COLA ensures TienePendiente(s', d, -1) {
      if d < n {
        PendienteSigue(s, s', d, -1);
      } else {
        assert s'.eventos[|s.eventos|].doc == n && !s'.eventos[|s.eventos|].publicado;
      }
    }
    if w in s.workers && s.workers[w].fase.PorCerrar? {
      var e := s.workers[w].cola[0].evento;
      if s.docs[s.eventos[e].doc] == EN_COLA {
        PendienteSigue(s, s', s.eventos[e].doc, e);
      }
    }
  }

  lemma {:induction false} CorrerNoOlvida(ps: seq<Paso>, w: WorkerId)
    requires forall i :: 0 <= i < |ps| ==> DelWorker(ps[i], w) && Admite(ps[i])
    ensures Bien(Correr(INICIAL, ps), w) && ConPendientes(Correr(INICIAL, ps)) && CierraSinOlvidar(Correr(INICIAL, ps), w)
  {
    if |ps| > 0 {
      var s, p := Correr(INICIAL, ps[..|ps| - 1]), ps[|ps| - 1];
      CorrerNoOlvida(ps[..|ps| - 1], w);
      if Dar(s, p) != s {
        match p
        case Cerrar(u) => CerrarNoOlvida(s, w);
        case Reintentar(d) => ReintentarNoOlvida(s, d, w);
        case Emitir => EmitirNoOlvida(s, w);
        case Escribir(u) => EscribirNoOlvida(s, w);
        case _ => RestoNoOlvida(s, p, w);
      }
    }
  }

  /** With one worker, and a provider that answers only verdicts the table takes from the queue, every
      document in the queue has an event that is still to be published: none is forgotten. */
  lemma {:induction false} NadieOlvidado(ps: seq<Paso>, w: WorkerId, d: DocId)
    requires forall i :: 0 <= i < |ps| ==> DelWorker(ps[i], w) && Admite(ps[i])
    ensures var s := Correr(INICIAL, ps);
      d < |s.docs| && s.docs[d] == EN_COLA ==>
        exists i :: 0 <= i < |s.eventos| && s.eventos[i].doc == d && !s.eventos[i].publicado
  {
    CorrerNoOlvida(ps, w);
    var s := Correr(INICIAL, ps);
    if d < |s.docs| && s.docs[d] == EN_COLA {
      var i :| 0 <= i < |s.eventos| && i != -1 && s.eventos[i].doc == d && !s.eventos[i].publicado;
    }
  }

  /** The document waits in the queue, and nothing will ever come for it. */
  ghost predicate Olvidado(s: Estado, d: DocId) {
    && d < |s.docs| && s.docs[d] == EN_COLA
    && (forall i :: 0 <= i < |s.eventos| && s.eventos[i].doc == d ==> s.eventos[i].publicado)
    && (forall w, k :: w in s.workers && 0 <= k < |s.workers[w].cola| ==>
          s.workers[w].cola[k].evento < |s.eventos| && s.eventos[s.workers[w].cola[k].evento].doc != d)
  }

  lemma {:induction false} OlvidadoPaso(s: Estado, p: Paso, d: DocId)
    requires Olvidado(s, d)
    ensures Olvidado(Dar(s, p), d)
  {
    var s' := Dar(s, p);
    if p.Reclamar? && p.worker !in s.workers && LoteValido(s, p.ids) {
      forall k | 0 <= k < |p.ids| ensures s.eventos[p.ids[k]].doc != d {
        assert Reclamable(s.eventos[p.ids[k]], s.ahora);
      }
    }
  }

  /** Whatever happens later, it stays so; and no user can send it again. */
  lemma {:induction false} OlvidadoSiempre(s: Estado, d: DocId, ps: seq<Paso>)
    requires Olvidado(s, d)
    ensures Olvidado(Correr(s, ps), d) && ReintentarDoc(Correr(s, ps), d) == Err(Conflicto)
  {
    if |ps| > 0 {
      OlvidadoSiempre(s, d, ps[..|ps| - 1]);
      OlvidadoPaso(Correr(s, ps[..|ps| - 1]), ps[|ps| - 1], d);
    }
  }

  /** The condition is exact: any other answer about the first document leaves it forgotten. */
  lemma {:induction false} OtraRespuestaOlvida(respuesta: EstadoDoc)
    requires respuesta !in VEREDICTOS
    ensures Olvidado(Atender(Dar(INICIAL, Emitir), 0, 0, 0, Some(respuesta)), 0)
  {
    var s := Dar(INICIAL, Emitir);
    assert s.docs == [EN_COLA] && s.eventos == [Evento(0, Emision, 0, 0, None, false)];
    AtiendeUno(s, 0, 0, 0, Some(respuesta));
    AtendidoSolo(s, 0, 0, Some(respuesta));
  }

  lemma {:induction false} AtendidoSolo(s: Estado, w: WorkerId, segundos: nat, respuesta: Option<EstadoDoc>)
    requires Honesto(s) && |s.eventos| == 1 && s.workers == map[] && PuedeReclamarse(s.eventos[0], s.ahora + segundos)
    ensures var s' := Atender(s, w, 0, segundos, respuesta);
      |s'.eventos| == 1 && s'.eventos[0].doc == s.eventos[0].doc && s'.workers == map[]
  {
    var s1 := Dar(s, Pasar(segundos));
    ReclamaUno(s1, w, 0);
    var s2 := Dar(s1, Reclamar(w, [0]));
    AntesDeCerrar(s2, w, Trabajo(0, s.eventos[0].intentos + 1), respuesta);
    CierreExacto(Dar(Dar(Dar(s2, Leer(w)), Responder(w, respuesta)), Escribir(w)), w);
  }
}
