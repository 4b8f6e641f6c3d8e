/** The fiscal worker and the retry of users as they run: the loop over the claimed events, the
    read, the provider's answer, the guarded write, and the rows each rewrites. Each action is a
    step of the protocol. */
module FiscalServicio {
  import opened Comun
  import opened Fiscal
  import Protocolo = Fiscal

  /** The steps of one event: read; if it can be processed, ask and write; then close. A step that
      does not apply leaves the protocol as it is. */
  function PasosDelEvento(w: WorkerId, respuesta: Option<EstadoDoc>): seq<Paso> {
    [Leer(w), Responder(w, respuesta), Escribir(w), Cerrar(w)]
  }

  function PasosDeEventos(w: WorkerId, respuestas: seq<Option<EstadoDoc>>): seq<Paso> {
    if |respuestas| == 0 then []
    else PasosDeEventos(w, respuestas[..|respuestas| - 1]) + PasosDelEvento(w, respuestas[|respuestas| - 1])
  }

  /** The steps of a tick that processes as many events as there are answers. */
  function PasosDelTick(w: WorkerId, ids: seq<nat>, respuestas: seq<Option<EstadoDoc>>): seq<Paso> {
    [Protocolo.Reclamar(w, ids)] + PasosDeEventos(w, respuestas)
  }

  lemma {:induction false} CorrerConcat(s: Estado, ps: seq<Paso>, qs: seq<Paso>)
    ensures Correr(s, ps + qs) == Correr(Correr(s, ps), qs)
  {
    if |qs| == 0 {
      assert ps + qs == ps;
    } else {
      assert (ps + qs)[..|ps + qs| - 1] == ps + qs[..|qs| - 1];
      CorrerConcat(s, ps, qs[..|qs| - 1]);
    }
  }

  lemma {:induction false} EventoCorre(s: Estado, w: WorkerId, respuesta: Option<EstadoDoc>)
    ensures Correr(s, PasosDelEvento(w, respuesta))
         == Dar(Dar(Dar(Dar(s, Leer(w)), Responder(w, respuesta)), Escribir(w)), Cerrar(w))
  {
    var ps := PasosDelEvento(w, respuesta);
    assert ps[..1][..0] == [] && Correr(s, ps[..1]) == Dar(s, Leer(w));
    assert ps[..2][..1] == ps[..1] && Correr(s, ps[..2]) == Dar(Dar(s, Leer(w)), Responder(w, respuesta));
    assert ps[..3][..2] == ps[..2] && Correr(s, ps[..3]) == Dar(Correr(s, ps[..2]), Escribir(w));
  }

  lemma {:induction false} ReclamarCorre(s: Estado, w: WorkerId, ids: seq<nat>)
    ensures Correr(s, PasosDelTick(w, ids, [])) == Dar(s, Protocolo.Reclamar(w, ids))
  {
    var ps := PasosDelTick(w, ids, []);
    assert ps == [Protocolo.Reclamar(w, ids)] && ps[..0] == [];
  }

  /** One more event of the queue is four more steps of the tick. */
  lemma {:induction false} TickPaso(s: Estado, w: WorkerId, ids: seq<nat>, respuestas: seq<Option<EstadoDoc>>, i: nat)
    requires i < |respuestas|
    ensures Correr(s, PasosDelTick(w, ids, respuestas[..i + 1]))
         == Correr(Correr(s, PasosDelTick(w, ids, respuestas[..i])), PasosDelEvento(w, respuestas[i]))
  {
    assert respuestas[..i + 1][..i] == respuestas[..i];
    var antes, evento := PasosDelTick(w, ids, respuestas[..i]), PasosDelEvento(w, respuestas[i]);
    assert PasosDelTick(w, ids, respuestas[..i + 1]) == antes + evento;
    CorrerConcat(s, antes, evento);
  }

  lemma {:induction false} TickDelWorker(w: WorkerId, ids: seq<nat>, respuestas: seq<Option<EstadoDoc>>)
    ensures var ps := PasosDelTick(w, ids, respuestas); forall i :: 0 <= i < |ps| ==> DelWorker(ps[i], w) && !ps[i].Caer?
  {
    if |respuestas| > 0 {
      TickDelWorker(w, ids, respuestas[..|respuestas| - 1]);
      var previos := PasosDelTick(w, ids, respuestas[..|respuestas| - 1]);
      assert PasosDelTick(w, ids, respuestas) == previos + PasosDelEvento(w, respuestas[|respuestas| - 1]);
    }
  }

  /** A tick of the only worker keeps the protocol's invariants, changes no final document, and
      each of its steps changes each document legally. */
  lemma {:induction false} TickLegal(s: Estado, w: WorkerId, ids: seq<nat>, respuestas: seq<Option<EstadoDoc>>)
    requires Bien(s, w)
    ensures var ps := PasosDelTick(w, ids, respuestas);
      && Bien(Correr(s, ps), w) && (Acotados(s, w) ==> Acotados(Correr(s, ps), w))
      && ConservaFinales(s, Correr(s, ps))
      && forall n, d: nat :: 0 <= n < |ps| ==> CambioLegal(Correr(s, ps[..n]), Dar(Correr(s, ps[..n]), ps[n]), d)
  {
    var ps := PasosDelTick(w, ids, respuestas);
    TickDelWorker(w, ids, respuestas);
    CorrerMantiene(s, ps, w);
    if Acotados(s, w) {
      CorrerAcotados(s, ps, w);
    }
    forall d | 0 <= d < |s.docs| && s.docs[d] in ESTADOS_FINALES
      ensures d < |Correr(s, ps).docs| && Correr(s, ps).docs[d] == s.docs[d] {
      FinalesFijos(s, ps, w, d);
    }
    forall n, d: nat | 0 <= n < |ps| ensures CambioLegal(Correr(s, ps[..n]), Dar(Correr(s, ps[..n]), ps[n]), d) {
      CorrerMantiene(s, ps[..n], w);
      PasoLegal(Correr(s, ps[..n]), ps[n], w, d);
    }
  }

  class ProcesadorFiscal {
    const worker: WorkerId
    var ahora: nat
    var docs: seq<EstadoDoc>
    var eventos: seq<Evento>
    /** The claimed events this tick has still to process. */
    var cola: seq<Trabajo>
    var corriendo: bool
    ghost var otros: map<WorkerId, Worker>

    /** The protocol state, with this worker at a given point of the first event of its queue. */
    ghost function Foto(fase: Fase): Estado
      reads this
    {
      Estado(ahora, docs, eventos, if |cola| > 0 then otros[worker := Worker(cola, fase)] else otros)
    }

    ghost predicate Valid()
      reads this
    {
      && worker !in otros
      && (forall i :: 0 <= i < |eventos| ==> eventos[i].doc < |docs|)
      && (forall i :: 0 <= i < |cola| ==> cola[i].evento < |eventos|)
    }

    constructor (worker: WorkerId)
      ensures this.worker == worker && Valid() && Foto(PorLeer) == INICIAL && !corriendo
      ensures Bien(Foto(PorLeer), worker) && Acotados(Foto(PorLeer), worker)
    {
      this.worker := worker;
      ahora, docs, eventos, cola, corriendo, otros := 0, [], [], [], false, map[];
    }

    /** reintentar: back to the queue with an event of its own, or nothing at all. */
    method Reintentar(d: DocId) returns (r: Resultado<()>)
      modifies this`docs, this`eventos
      ensures match ReintentarDoc(old(Foto(PorLeer)), d)
        case Ok(s) => r == Ok(()) && Foto(PorLeer) == s
        case Err(e) => r == Err(e) && Foto(PorLeer) == old(Foto(PorLeer))
      ensures Foto(PorLeer) == Dar(old(Foto(PorLeer)), Protocolo.Reintentar(d))
    {
      if d >= |docs| {
        return Err(NoEncontrado);
      }
      if !PuedeTransicionar(docs[d], EN_COLA) {
        return Err(Conflicto);
      }
      if Encolado(eventos, d, Reintento) {
        return Err(ClaveRepetida);
      }
      docs := docs[d := EN_COLA];
      eventos := eventos + [Evento(d, Reintento, 0, ahora, None, false)];
      r := Ok(());
    }

    /** registrarResultado: the verdict if the state that was read allows it. */
    method RegistrarResultado(d: DocId, estadoActual: EstadoDoc, pedido: EstadoDoc)
      requires d < |docs|
      modifies this`docs
      ensures docs == old(docs)[d := Destino(estadoActual, pedido)]
    {
      var destino := estadoActual;
      if PuedeTransicionar(estadoActual, pedido) {
        destino := pedido;
      }
      docs := docs[d := destino];
    }

    /** procesarPendiente: read, ask, write. */
    method ProcesarPendiente(respuesta: Option<EstadoDoc>) returns (procesado: bool)
      requires Valid() && |cola| > 0
      modifies this`docs
      ensures |docs| == |old(docs)|
      ensures Foto(PorCerrar(procesado)) == Dar(Dar(Dar(old(Foto(PorLeer)), Leer(worker)), Responder(worker, respuesta)), Escribir(worker))
    {
      ghost var antes := Foto(PorLeer);
      var d := eventos[cola[0].evento].doc;
      var leido := docs[d];
      if leido !in ESTADOS_PROCESABLES {
        assert otros[worker := Worker(cola, PorCerrar(false))] == antes.workers[worker := Worker(cola, PorCerrar(false))];
        return false;
      }
      match respuesta {
        case None =>
          RegistrarResultado(d, leido, ERROR);
          procesado := false;
        case Some(estado) =>
          RegistrarResultado(d, leido, estado);
          procesado := true;
      }
      assert otros[worker := Worker(cola, PorCerrar(procesado))] == antes.workers[worker := Worker(cola, PorCerrar(procesado))];
    }

    /** marcarPublicado or reprogramar: publish what was processed or ran out of attempts; a row
        already published refuses either, and the tick aborts. */
    method CerrarPrimero(procesado: bool)
      requires Valid() && |cola| > 0
      modifies this`eventos, this`cola
      ensures Foto(PorLeer) == Dar(old(Foto(PorCerrar(procesado))), Cerrar(worker))
      ensures Valid()
      ensures cola == old(cola)[1..] || cola == []
    {
      ghost var antes := Foto(PorCerrar(procesado));
      var t := cola[0];
      if eventos[t.evento].publicado {
        cola := [];
        assert otros == antes.workers - {worker};
        return;
      }
      if procesado || t.intentos >= MAX_INTENTOS {
        eventos := eventos[t.evento := eventos[t.evento].(publicado := true, bloqueadoEn := None)];
      } else {
        eventos := eventos[t.evento := eventos[t.evento].(bloqueadoEn := None, disponibleEn := ahora + Espera(t.intentos))];
      }
      cola := cola[1..];
      assert Foto(PorLeer).workers == Siguiente(antes.workers, worker);
    }

    /** procesar, for the first event of the queue. */
    method Procesar(respuesta: Option<EstadoDoc>)
      requires Valid() && |cola| > 0
      modifies this`docs, this`eventos, this`cola
      ensures Foto(PorLeer) == Correr(old(Foto(PorLeer)), PasosDelEvento(worker, respuesta))
      ensures Valid()
      ensures cola == old(cola)[1..] || cola == []
    {
      EventoCorre(Foto(PorLeer), worker, respuesta);
      var procesado := ProcesarPendiente(respuesta);
      CerrarPrimero(procesado);
    }

    method Arrendar(ids: seq<nat>)
      requires forall i :: 0 <= i < |ids| ==> ids[i] < |eventos|
      requires forall i, j :: 0 <= i < j < |ids| ==> ids[i] != ids[j]
      modifies this`eventos
      ensures eventos == ReclamarFilas(old(eventos), ids, ahora)
    {
      for i := 0 to |ids|
        invariant |eventos| == |old(eventos)|
        invariant eventos == ReclamarFilas(old(eventos), ids[..i], ahora)
      {
        assert ids[..i + 1][..i] == ids[..i];
        eventos := eventos[ids[i] := eventos[ids[i]].(bloqueadoEn := Some(ahora), intentos := eventos[ids[i]].intentos + 1)];
      }
      assert ids[..|ids|] == ids;
    }

    /** reclamar: lease the rows and count one more attempt on each. */
    method Reclamar(ids: seq<nat>)
      requires Valid() && cola == [] && (ids == [] || LoteValido(Foto(PorLeer), ids))
      modifies this`eventos, this`cola
      ensures Foto(PorLeer) == Dar(old(Foto(PorLeer)), Protocolo.Reclamar(worker, ids))
      ensures Valid() && |cola| == |ids|
    {
      Arrendar(ids);
      cola := Trabajos(eventos, ids);
    }

    /** The loop of the tick; `n` is how many events it processed before it ended or was aborted. */
    method ProcesarCola(ids: seq<nat>, respuestas: seq<Option<EstadoDoc>>, ghost antes: Estado) returns (ghost n: nat)
      requires Valid() && |respuestas| == |cola|
      requires Foto(PorLeer) == Correr(antes, PasosDelTick(worker, ids, []))
      modifies this`docs, this`eventos, this`cola
      ensures Valid() && cola == [] && n <= |respuestas|
      ensures Foto(PorLeer) == Correr(antes, PasosDelTick(worker, ids, respuestas[..n]))
    {
      var i := 0;
      while |cola| > 0
        invariant Valid() && i <= |respuestas| && (|cola| > 0 ==> |cola| == |respuestas| - i)
        invariant Foto(PorLeer) == Correr(antes, PasosDelTick(worker, ids, respuestas[..i]))
        decreases |cola|
      {
        TickPaso(antes, worker, ids, respuestas, i);
        Procesar(respuestas[i]);
        i := i + 1;
      }
      n := i;
    }

    /** tick: claim a batch and process it, unless a tick is still running; `n` is how many events
        it processed before it ended or was aborted. It is a run of the protocol, so with one
        worker it keeps its invariants and changes no final document. */
    method Tick(ids: seq<nat>, respuestas: seq<Option<EstadoDoc>>) returns (ghost n: nat)
      requires Valid() && cola == [] && |respuestas| == |ids| && (ids == [] || LoteValido(Foto(PorLeer), ids))
      modifies this`docs, this`eventos, this`cola, this`corriendo
      ensures Valid() && corriendo == old(corriendo) && cola == [] && n <= |ids|
      ensures old(corriendo) ==> Foto(PorLeer) == old(Foto(PorLeer))
      ensures !old(corriendo) ==> Foto(PorLeer) == Correr(old(Foto(PorLeer)), PasosDelTick(worker, ids, respuestas[..n]))
      ensures old(Bien(Foto(PorLeer), worker)) ==> Bien(Foto(PorLeer), worker) && ConservaFinales(old(Foto(PorLeer)), Foto(PorLeer))
      ensures old(Bien(Foto(PorLeer), worker) && Acotados(Foto(PorLeer), worker)) ==> Acotados(Foto(PorLeer), worker)
    {
      n := 0;
      if corriendo {
        return;
      }
      corriendo := true;
      ghost var antes := Foto(PorLeer);
      ReclamarCorre(antes, worker, ids);
      Reclamar(ids);
      n := ProcesarCola(ids, respuestas, antes);
      corriendo := false;
      if Bien(antes, worker) {
        TickLegal(antes, worker, ids, respuestas[..n]);
      }
    }
  }
}
