/** The relay worker as it runs: the guard against overlapping ticks, the claim, the loop over the
    claimed events, and the rows it rewrites. Each of its actions is a step of the protocol. */
module RelayServicio {
  import opened Comun
  import opened RelayTenant
  import Protocolo = RelayTenant

  /** How the processing of an event goes: the delivery, and whether the operations database then
      takes the publication and, when it comes to that, the rescheduling. */
  datatype Suceso = Suceso(respuesta: Respuesta, publica: bool, reprograma: bool)

  /** The event is delivered and published; whatever fails on the way reschedules it; and when that
      fails too the tick ends there, with the leases still on. */
  function PasosDelEvento(w: WorkerId, x: Suceso): seq<Paso> {
    var cierre := if x.reprograma then Reprogramar(w) else Caer(w);
    if x.respuesta != Hecho then [Entregar(w, x.respuesta), cierre]
    else if x.publica then [Entregar(w, Hecho), Publicar(w)]
    else [Entregar(w, Hecho), PublicarFalla(w), cierre]
  }

  function PasosDelTick(w: WorkerId, sucesos: seq<Suceso>): seq<Paso> {
    if |sucesos| == 0 then []
    else PasosDelTick(w, sucesos[..|sucesos| - 1]) + PasosDelEvento(w, sucesos[|sucesos| - 1])
  }

  lemma {:induction false} CorrerConcat(s: Estado, ps: seq<Paso>, qs: seq<Paso>)
    ensures Correr(s, ps + qs) == Correr(Correr(s, ps), qs)
  {
    if |qs| == 0 {
      assert ps + qs == ps;
    } else {
      assert (ps + qs)[..|ps + qs| - 1] == ps + qs[..|qs| - 1];
      CorrerConcat(s, ps, qs[..|qs| - 1]);
    }
  }

  lemma {:induction false} CorrerDos(s: Estado, p: Paso, q: Paso)
    ensures Correr(s, [p, q]) == Dar(Dar(s, p), q)
  {
    assert [p][..0] == [] && Correr(s, [p]) == Dar(s, p);
    assert [p, q][..1] == [p];
  }

  lemma {:induction false} CorrerTres(s: Estado, p: Paso, q: Paso, r: Paso)
    ensures Correr(s, [p, q, r]) == Dar(Dar(Dar(s, p), q), r)
  {
    assert [p, q, r][..2] == [p, q];
    CorrerDos(s, p, q);
  }

  /** One more event of the queue. */
  lemma {:induction false} TickPaso(w: WorkerId, sucesos: seq<Suceso>, i: nat, s: Estado)
    requires i < |sucesos|
    ensures Correr(s, PasosDelTick(w, sucesos[..i + 1]))
         == Correr(Correr(s, PasosDelTick(w, sucesos[..i])), PasosDelEvento(w, sucesos[i]))
  {
    assert sucesos[..i + 1][..i] == sucesos[..i];
    CorrerConcat(s, PasosDelTick(w, sucesos[..i]), PasosDelEvento(w, sucesos[i]));
  }

  class RelayTenantOutbox {
    const worker: WorkerId
    var ahora: nat
    var codigos: seq<string>
    var eventos: seq<Evento>
    var gestion: Gestion
    /** The claimed events this tick has still to process. */
    var cola: seq<Trabajo>
    var corriendo: bool
    ghost var otros: map<WorkerId, Worker>

    /** The protocol state, with this worker at a given point of the first event of its queue. */
    ghost function Foto(fase: Fase): Estado
      reads this
    {
      Estado(ahora, codigos, eventos, gestion, if |cola| > 0 then otros[worker := Worker(cola, fase)] else otros)
    }

    ghost predicate Valid()
      reads this
    {
      worker !in otros && Bien(Foto(PorEntregar))
    }

    constructor (worker: WorkerId)
      ensures this.worker == worker && Valid() && Foto(PorEntregar) == INICIAL && !corriendo
    {
      this.worker := worker;
      ahora, codigos, eventos, cola, corriendo, otros := 0, [], [], [], false, map[];
      gestion := Gestion(map[], {}, {}, {}, map[]);
    }

    /** The first n claimed events have been processed. */
    ghost predicate TrasProcesar(reclamado: Estado, sucesos: seq<Suceso>, n: nat)
      requires n <= |sucesos|
      reads this
    {
      Foto(PorEntregar) == Correr(reclamado, PasosDelTick(worker, sucesos[..n]))
    }

    method Arrendar(ids: seq<nat>)
      requires forall i :: 0 <= i < |ids| ==> ids[i] < |eventos|
      requires forall i, j :: 0 <= i < j < |ids| ==> ids[i] != ids[j]
      modifies this`eventos
      ensures eventos == ReclamarFilas(old(eventos), ids, ahora)
    {
      for i := 0 to |ids|
        invariant |eventos| == |old(eventos)|
        invariant eventos == ReclamarFilas(old(eventos), ids[..i], ahora)
      {
        assert ids[..i + 1][..i] == ids[..i];
        eventos := eventos[ids[i] := eventos[ids[i]].(bloqueadoEn := Some(ahora), intentos := eventos[ids[i]].intentos + 1)];
      }
      assert ids[..|ids|] == ids;
    }

    /** reclamar: lease the rows and count one more attempt on each. */
    method Reclamar(ids: seq<nat>)
      requires worker !in otros && cola == [] && LoteValido(Foto(PorEntregar), ids)
      modifies this`eventos, this`cola
      ensures Foto(PorEntregar) == Dar(old(Foto(PorEntregar)), Protocolo.Reclamar(worker, ids))
      ensures |cola| == |ids|
    {
      Arrendar(ids);
      cola := Trabajos(eventos, ids);
    }

    /** procesarTenantCreado: every row of the projection, or none when the message or the slug is
        already there. */
    method ProcesarTenantCreado(e: nat)
      requires e < |eventos|
      modifies this`gestion
      ensures gestion == Consumir(old(gestion), e, eventos[e].carga)
    {
      var c, g := eventos[e].carga, gestion;
      if SlugAjeno(g, c) {
        return;
      }
      gestion := gestion.(tenants := gestion.tenants[c.tenantId := c]);
      if e in gestion.inbox {
        gestion := g;
        return;
      }
      gestion := gestion.(inbox := gestion.inbox[e := Inbox(c.tenantId, c, RECIBIDO)]);
      gestion := gestion.(controles := gestion.controles + {c.tenantId});
      gestion := gestion.(configuraciones := gestion.configuraciones + {c.tenantId});
      gestion := gestion.(onboarding := gestion.onboarding + {c.tenantId});
      gestion := gestion.(inbox := gestion.inbox[e := gestion.inbox[e].(estado := PROCESADO)]);
    }

    /** Deliver the first event of the queue. */
    method EntregarPrimero(respuesta: Respuesta)
      requires worker !in otros && |cola| > 0 && cola[0].evento < |eventos|
      modifies this`gestion
      ensures Foto(if respuesta == Hecho then PorPublicar else PorReprogramar)
           == Dar(old(Foto(PorEntregar)), Entregar(worker, respuesta))
    {
      if respuesta != Fallo {
        ProcesarTenantCreado(cola[0].evento);
      }
      ghost var fase := if respuesta == Hecho then PorPublicar else PorReprogramar;
      assert otros[worker := Worker(cola, fase)] == otros[worker := Worker(cola, PorEntregar)][worker := Worker(cola, fase)];
    }

    /** marcarPublicado; a row somebody else published refuses it, and the rescheduling after it,
        and the tick aborts. */
    method MarcarPublicado()
      requires worker !in otros && |cola| > 0 && cola[0].evento < |eventos|
      modifies this`eventos, this`cola
      ensures Foto(PorEntregar) == Dar(old(Foto(PorPublicar)), Publicar(worker))
      ensures cola == old(cola)[1..] || cola == []
    {
      var e := cola[0].evento;
      ghost var antes := Foto(PorPublicar);
      if eventos[e].publicadoEn != None {
        cola := [];
        assert otros == antes.workers - {worker};
      } else {
        eventos := eventos[e := eventos[e].(publicadoEn := Some(ahora), bloqueadoEn := None)];
        cola := cola[1..];
        assert Foto(PorEntregar).workers == Siguiente(antes.workers, worker);
      }
    }

    /** reprogramar: release the lease and wait 2^attempts minutes, an hour at most. */
    method ReprogramarPrimero()
      requires worker !in otros && |cola| > 0 && cola[0].evento < |eventos|
      modifies this`eventos, this`cola
      ensures Foto(PorEntregar) == Dar(old(Foto(PorReprogramar)), Reprogramar(worker))
      ensures cola == old(cola)[1..] || cola == []
    {
      var e, intentos := cola[0].evento, cola[0].intentos;
      ghost var antes := Foto(PorReprogramar);
      if eventos[e].publicadoEn != None {
        cola := [];
        assert otros == antes.workers - {worker};
      } else {
        eventos := eventos[e := eventos[e].(bloqueadoEn := None, disponibleEn := ahora + Espera(intentos))];
        cola := cola[1..];
        assert Foto(PorEntregar).workers == Siguiente(antes.workers, worker);
      }
    }

    /** What the catch of procesar does: reschedule, or end the tick when the database refuses. */
    method Cerrar(reprograma: bool)
      requires worker !in otros && |cola| > 0 && cola[0].evento < |eventos|
      modifies this`eventos, this`cola
      ensures Foto(PorEntregar) == Dar(old(Foto(PorReprogramar)), if reprograma then Reprogramar(worker) else Caer(worker))
      ensures cola == old(cola)[1..] || cola == []
    {
      if reprograma {
        ReprogramarPrimero();
      } else {
        ghost var antes := Foto(PorReprogramar);
        cola := [];
        assert otros == antes.workers - {worker};
      }
    }

    /** procesar, for the first event of the queue. */
    method ProcesarPrimero(x: Suceso)
      requires worker !in otros && |cola| > 0 && cola[0].evento < |eventos|
      modifies this`eventos, this`gestion, this`cola
      ensures Foto(PorEntregar) == Correr(old(Foto(PorEntregar)), PasosDelEvento(worker, x))
      ensures cola == old(cola)[1..] || cola == []
    {
      ghost var antes, cierre := Foto(PorEntregar), if x.reprograma then Reprogramar(worker) else Caer(worker);
      EntregarPrimero(x.respuesta);
      if x.respuesta == Hecho && x.publica {
        CorrerDos(antes, Entregar(worker, Hecho), Publicar(worker));
        MarcarPublicado();
        return;
      }
      if x.respuesta == Hecho {
        CorrerTres(antes, Entregar(worker, Hecho), PublicarFalla(worker), cierre);
        assert otros[worker := Worker(cola, PorReprogramar)] == otros[worker := Worker(cola, PorPublicar)][worker := Worker(cola, PorReprogramar)];
        assert Foto(PorReprogramar) == Dar(Foto(PorPublicar), PublicarFalla(worker));
      } else {
        CorrerDos(antes, Entregar(worker, x.respuesta), cierre);
      }
      Cerrar(x.reprograma);
    }

    method Procesar(x: Suceso)
      requires Valid() && |cola| > 0
      modifies this`eventos, this`gestion, this`cola
      ensures Foto(PorEntregar) == Correr(old(Foto(PorEntregar)), PasosDelEvento(worker, x))
      ensures Valid()
      ensures cola == old(cola)[1..] || cola == []
    {
      assert WorkerBien(Foto(PorEntregar), worker);
      CorrerMantiene(Foto(PorEntregar), PasosDelEvento(worker, x));
      ProcesarPrimero(x);
    }

    /** The loop of the tick; `n` is how many events it processed before it ended or was aborted. */
    method ProcesarCola(sucesos: seq<Suceso>) returns (ghost n: nat)
      requires Valid() && |sucesos| == |cola|
      modifies this`eventos, this`gestion, this`cola
      ensures Valid() && cola == [] && n <= |sucesos| && TrasProcesar(old(Foto(PorEntregar)), sucesos, n)
    {
      ghost var reclamado := Foto(PorEntregar);
      var i := 0;
      while |cola| > 0
        invariant Valid() && i <= |sucesos| && (|cola| > 0 ==> |cola| == |sucesos| - i)
        invariant TrasProcesar(reclamado, sucesos, i)
        decreases |cola|
      {
        TickPaso(worker, sucesos, i, reclamado);
        Procesar(sucesos[i]);
        i := i + 1;
      }
      n := i;
    }

    /** tick: claim a batch and process it, unless a tick is still running. */
    method Tick(ids: seq<nat>, sucesos: seq<Suceso>) returns (ghost n: nat)
      requires Valid() && cola == [] && |sucesos| == |ids| && LoteValido(Foto(PorEntregar), ids)
      modifies this`eventos, this`gestion, this`cola, this`corriendo
      ensures Valid() && corriendo == old(corriendo) && cola == []
      ensures old(corriendo) ==> Foto(PorEntregar) == old(Foto(PorEntregar))
      ensures !old(corriendo) ==>
        n <= |ids| && TrasProcesar(Dar(old(Foto(PorEntregar)), Protocolo.Reclamar(worker, ids)), sucesos, n)
    {
      n := 0;
      if corriendo {
        return;
      }
      corriendo := true;
      DarMantiene(Foto(PorEntregar), Protocolo.Reclamar(worker, ids));
      Reclamar(ids);
      n := ProcesarCola(sucesos);
      corriendo := false;
    }
  }
}
