/** The relay of tenant events from the operations database to the management database: an
    outbox with leases, several workers that crash, fail and redeliver, an inbox that makes
    delivery idempotent, and a trigger that freezes published rows. */
module RelayTenant {
  import opened Comun

  type TenantId = nat
  type WorkerId = nat

  /** The payload of a tenant.created event. */
  datatype Carga = Carga(tenantId: TenantId, slug: string, nombreVisible: string, razonSocial: string)

  /** One OutboxEvent row of type tenant.created. Times are in seconds. */
  datatype Evento = Evento(
    inquilinoId: TenantId, carga: Carga, intentos: nat, disponibleEn: nat, bloqueadoEn: Option<nat>, publicadoEn: Option<nat>)

  datatype EstadoInbox = RECIBIDO | PROCESADO

  datatype Inbox = Inbox(inquilinoId: TenantId, carga: Carga, estado: EstadoInbox)

  /** The management database: the projected tenants, the rows that hang from each of them, and
      the inbox by message id. */
  datatype Gestion = Gestion(
    tenants: map<TenantId, Carga>, controles: set<TenantId>, configuraciones: set<TenantId>, onboarding: set<TenantId>,
    inbox: map<nat, Inbox>)

  /** An event as a worker claimed it, with the attempts the claim returned. */
  datatype Trabajo = Trabajo(evento: nat, intentos: nat)

  /** Where a running worker stands with the first event of its queue. */
  datatype Fase = PorEntregar | PorPublicar | PorReprogramar

  datatype Worker = Worker(cola: seq<Trabajo>, fase: Fase)

  /** Tenant ids and event ids are positions in their tables. A worker is present while its tick runs. */
  datatype Estado = Estado(
    ahora: nat, codigos: seq<string>, eventos: seq<Evento>, gestion: Gestion, workers: map<WorkerId, Worker>)

  const INICIAL: Estado := Estado(0, [], [], Gestion(map[], {}, {}, {}, map[]), map[])

  const ARRENDAMIENTO: nat := 120
  const LOTE: nat := 10

  // ------------------------------------------------------------------ registering

  /** The tenant and its event, in one transaction; the unique index on the code refuses a taken one. */
  function Registrar(s: Estado, codigo: string, nombre: string, razonSocial: string): Resultado<Estado> {
    if codigo in s.codigos then Err(ClaveRepetida)
    else
      var id := |s.codigos|;
      Ok(s.(codigos := s.codigos + [codigo],
            eventos := s.eventos + [Evento(id, Carga(id, codigo, nombre, razonSocial), 0, s.ahora, None, None)]))
  }

  // ------------------------------------------------------------------ claiming

  predicate Reclamable(e: Evento, ahora: nat) {
    && e.publicadoEn == None
    && e.disponibleEn <= ahora
    && (e.bloqueadoEn == None || e.bloqueadoEn.value + ARRENDAMIENTO < ahora)
  }

  /** The rows one claim may take: distinct, claimable, and no more than a batch. */
  predicate LoteValido(s: Estado, ids: seq<nat>) {
    && |ids| <= LOTE
    && (forall i :: 0 <= i < |ids| ==> ids[i] < |s.eventos| && Reclamable(s.eventos[ids[i]], s.ahora))
    && (forall i, j :: 0 <= i < j < |ids| ==> ids[i] != ids[j])
  }

  /** Each claimed row is leased and counts one more attempt; the others stay as they are. */
  function ReclamarFilas(eventos: seq<Evento>, ids: seq<nat>, ahora: nat): (r: seq<Evento>)
    requires forall i :: 0 <= i < |ids| ==> ids[i] < |eventos|
    requires forall i, j :: 0 <= i < j < |ids| ==> ids[i] != ids[j]
    ensures |r| == |eventos|
    ensures forall j :: 0 <= j < |eventos| ==>
      r[j] == if j in ids then eventos[j].(bloqueadoEn := Some(ahora), intentos := eventos[j].intentos + 1) else eventos[j]
  {
    if |ids| == 0 then eventos
    else
      var n := |ids| - 1;
      var previas := ReclamarFilas(eventos, ids[..n], ahora);
      assert ids == ids[..n] + [ids[n]];
      previas[ids[n] := previas[ids[n]].(bloqueadoEn := Some(ahora), intentos := previas[ids[n]].intentos + 1)]
  }

  /** The claim returns each row with the attempts it then has. */
  function Trabajos(eventos: seq<Evento>, ids: seq<nat>): (r: seq<Trabajo>)
    requires forall i :: 0 <= i < |ids| ==> ids[i] < |eventos|
    ensures |r| == |ids| && forall i :: 0 <= i < |ids| ==> r[i] == Trabajo(ids[i], eventos[ids[i]].intentos)
  {
    if |ids| == 0 then []
    else Trabajos(eventos, ids[..|ids| - 1]) + [Trabajo(ids[|ids| - 1], eventos[ids[|ids| - 1]].intentos)]
  }

  // ------------------------------------------------------------------ consuming

  /** Another tenant already has the slug, which is unique. */
  predicate SlugAjeno(g: Gestion, c: Carga) {
    exists t :: t in g.tenants && t != c.tenantId && g.tenants[t].slug == c.slug
  }

  /** The transaction of procesarTenantCreado: every row, or a unique violation and none. */
  function Proyectar(g: Gestion, mensaje: nat, c: Carga): Resultado<Gestion> {
    if SlugAjeno(g, c) || mensaje in g.inbox then Err(ClaveRepetida)
    else
      var t := c.tenantId;
      Ok(Gestion(g.tenants[t := c], g.controles + {t}, g.configuraciones + {t}, g.onboarding + {t},
                 g.inbox[mensaje := Inbox(t, c, PROCESADO)]))
  }

  /** Any unique violation is taken for a message already consumed. */
  function Consumir(g: Gestion, mensaje: nat, c: Carga): Gestion {
    Proyectar(g, mensaje, c).GetOr(g)
  }

  // ------------------------------------------------------------------ steps

  /** How the delivery of an event ends, as the worker sees it: done; failed before commit; or
      committed with the answer lost on the way. */
  datatype Respuesta = Hecho | Fallo | RespuestaPerdida

  datatype Paso =
    | Pasar(segundos: nat)
    | Alta(codigo: string, nombre: string, razonSocial: string)
    | Reclamar(worker: WorkerId, ids: seq<nat>)
    | Entregar(worker: WorkerId, respuesta: Respuesta)
    | Publicar(worker: WorkerId)
    | PublicarFalla(worker: WorkerId)
    | Reprogramar(worker: WorkerId)
    | Caer(worker: WorkerId)

  function Espera(intentos: nat): nat {
    60 * (if intentos >= 6 then 60 else Potencia2(intentos))
  }

  function Potencia2(n: nat): nat {
    if n == 0 then 1 else 2 * Potencia2(n - 1)
  }

  /** On to the next event of the queue; the tick ends after the last. */
  function Siguiente(workers: map<WorkerId, Worker>, w: WorkerId): map<WorkerId, Worker>
    requires w in workers && |workers[w].cola| > 0
  {
    if |workers[w].cola| == 1 then workers - {w} else workers[w := Worker(workers[w].cola[1..], PorEntregar)]
  }

  predicate Esta(s: Estado, w: WorkerId, fase: Fase) {
    w in s.workers && s.workers[w].fase == fase && |s.workers[w].cola| > 0 && s.workers[w].cola[0].evento < |s.eventos|
  }

  function Dar(s: Estado, p: Paso): Estado {
    match p
    case Pasar(segundos) => s.(ahora := s.ahora + segundos)
    case Alta(codigo, nombre, razon) => Registrar(s, codigo, nombre, razon).GetOr(s)
    case Reclamar(w, ids) =>
      if w in s.workers || |ids| == 0 || !LoteValido(s, ids) then s
      else
        var eventos := ReclamarFilas(s.eventos, ids, s.ahora);
        s.(eventos := eventos, workers := s.workers[w := Worker(Trabajos(eventos, ids), PorEntregar)])
    case Entregar(w, respuesta) =>
      if !Esta(s, w, PorEntregar) then s
      else
        var e := s.workers[w].cola[0].evento;
        var fase := if respuesta == Hecho then PorPublicar else PorReprogramar;
        s.(gestion := if respuesta == Fallo then s.gestion else Consumir(s.gestion, e, s.eventos[e].carga),
           workers := s.workers[w := s.workers[w].(fase := fase)])
    case Publicar(w) =>
      if !Esta(s, w, PorPublicar) then s
      else
        var e := s.workers[w].cola[0].evento;
        // A published row refuses the update, and then the rescheduling too: the tick aborts.
        if s.eventos[e].publicadoEn != None then s.(workers := s.workers - {w})
        else s.(eventos := s.eventos[e := s.eventos[e].(publicadoEn := Some(s.ahora), bloqueadoEn := None)],
                workers := Siguiente(s.workers, w))
    case PublicarFalla(w) =>
      if !Esta(s, w, PorPublicar) then s
      else s.(workers := s.workers[w := s.workers[w].(fase := PorReprogramar)])
    case Reprogramar(w) =>
      if !Esta(s, w, PorReprogramar) then s
      else
        var e, intentos := s.workers[w].cola[0].evento, s.workers[w].cola[0].intentos;
        if s.eventos[e].publicadoEn != None then s.(workers := s.workers - {w})
        else s.(eventos := s.eventos[e := s.eventos[e].(bloqueadoEn := None, disponibleEn := s.ahora + Espera(intentos))],
                workers := Siguiente(s.workers, w))
    case Caer(w) => s.(workers := s.workers - {w})
  }

  function Correr(s: Estado, ps: seq<Paso>): Estado {
    if |ps| == 0 then s else Dar(Correr(s, ps[..|ps| - 1]), ps[|ps| - 1])
  }

  // ------------------------------------------------------------------ the invariant

  /** Every tenant has exactly one event, its own, carrying its code. */
  ghost predicate EventosBien(s: Estado) {
    && |s.eventos| == |s.codigos|
    && (forall i :: 0 <= i < |s.eventos| ==>
          s.eventos[i].inquilinoId == i && s.eventos[i].carga.tenantId == i && s.eventos[i].carga.slug == s.codigos[i])
    && (forall i, j :: 0 <= i < j < |s.codigos| ==> s.codigos[i] != s.codigos[j])
  }

  /** Management holds exactly the projection of the messages in its inbox. */
  ghost predicate GestionBien(s: Estado) {
    && (forall m :: m in s.gestion.inbox ==>
          m < |s.eventos| && s.gestion.inbox[m] == Inbox(m, s.eventos[m].carga, PROCESADO))
    && (forall t :: t in s.gestion.tenants <==> t in s.gestion.inbox)
    && (forall t :: t in s.gestion.tenants ==> t < |s.eventos| && s.gestion.tenants[t] == s.eventos[t].carga)
    && s.gestion.controles == s.gestion.tenants.Keys
    && s.gestion.configuraciones == s.gestion.tenants.Keys
    && s.gestion.onboarding == s.gestion.tenants.Keys
  }

  ghost predicate WorkerBien(s: Estado, w: WorkerId)
    requires w in s.workers
  {
    var k := s.workers[w];
    && |k.cola| > 0
    && (forall i :: 0 <= i < |k.cola| ==> k.cola[i].evento < |s.eventos|)
    && (k.fase == PorPublicar ==> k.cola[0].evento in s.gestion.inbox)
  }

  ghost predicate Bien(s: Estado) {
    && EventosBien(s)
    && GestionBien(s)
    && (forall i :: 0 <= i < |s.eventos| && s.eventos[i].publicadoEn.Some? ==> i in s.gestion.inbox)
    && (forall w :: w in s.workers ==> WorkerBien(s, w))
  }

  /** A unique violation never hides a tenant that was not projected: slugs mirror codes, and
      codes are unique, so the only possible repetition is the message itself. */
  lemma {:induction false} SlugNuncaAjeno(s: Estado, m: nat)
    requires EventosBien(s) && GestionBien(s) && m < |s.eventos|
    ensures !SlugAjeno(s.gestion, s.eventos[m].carga)
  {
    forall t | t in s.gestion.tenants && t != m ensures s.gestion.tenants[t].slug != s.eventos[m].carga.slug {
      assert s.codigos[t] != s.codigos[m];
    }
  }

  lemma {:induction false} ConsumirMantiene(s: Estado, m: nat)
    requires EventosBien(s) && GestionBien(s) && m < |s.eventos|
    ensures var s' := s.(gestion := Consumir(s.gestion, m, s.eventos[m].carga));
      GestionBien(s') && m in s'.gestion.inbox && s.gestion.inbox.Keys <= s'.gestion.inbox.Keys
  {
    SlugNuncaAjeno(s, m);
  }

  /** Delivering again what was delivered once changes nothing. */
  lemma {:induction false} ReentregaIdempotente(s: Estado, m: nat)
    requires EventosBien(s) && GestionBien(s) && m < |s.eventos|
    ensures var una := Consumir(s.gestion, m, s.eventos[m].carga);
      Consumir(una, m, s.eventos[m].carga) == una
  {
    ConsumirMantiene(s, m);
  }

  lemma {:induction false} WorkersIguales(s: Estado, s': Estado, w: WorkerId)
    requires w in s.workers && WorkerBien(s, w) && w in s'.workers && s'.workers[w] == s.workers[w]
    requires |s.eventos| <= |s'.eventos| && s.gestion.inbox.Keys <= s'.gestion.inbox.Keys
    ensures WorkerBien(s', w)
  {
  }

  lemma {:induction false} AltaMantiene(s: Estado, codigo: string, nombre: string, razon: string)
    requires Bien(s)
    ensures Bien(Registrar(s, codigo, nombre, razon).GetOr(s))
  {
    var s' := Registrar(s, codigo, nombre, razon).GetOr(s);
    forall w | w in s'.workers ensures WorkerBien(s', w) {
      WorkersIguales(s, s', w);
    }
  }

  lemma {:induction false} ReclamarMantiene(s: Estado, w: WorkerId, ids: seq<nat>)
    requires Bien(s)
    ensures Bien(Dar(s, Reclamar(w, ids)))
  {
    var s' := Dar(s, Reclamar(w, ids));
    forall u | u in s'.workers ensures WorkerBien(s', u) {
      if u in s.workers {
        WorkersIguales(s, s', u);
      }
    }
  }

  lemma {:induction false} EntregarMantiene(s: Estado, w: WorkerId, respuesta: Respuesta)
    requires Bien(s)
    ensures Bien(Dar(s, Entregar(w, respuesta)))
  {
    var s' := Dar(s, Entregar(w, respuesta));
    if Esta(s, w, PorEntregar) {
      ConsumirMantiene(s, s.workers[w].cola[0].evento);
      assert WorkerBien(s, w);
      forall u | u in s'.workers ensures WorkerBien(s', u) {
        if u != w {
          WorkersIguales(s, s', u);
        }
      }
    }
  }

  /** A step that touches one event row and one worker, without delivering anything. */
  lemma {:induction false} FilaMantiene(s: Estado, s': Estado, w: WorkerId, e: nat)
    requires Bien(s) && w in s.workers && e < |s.eventos|
    requires s'.ahora == s.ahora && s'.codigos == s.codigos && s'.gestion == s.gestion
    requires |s'.eventos| == |s.eventos| && forall i :: 0 <= i < |s.eventos| ==>
      s'.eventos[i].inquilinoId == s.eventos[i].inquilinoId && s'.eventos[i].carga == s.eventos[i].carga
    requires forall i :: 0 <= i < |s.eventos| && i != e ==> s'.eventos[i] == s.eventos[i]
    requires s'.eventos[e].publicadoEn.Some? ==> e in s.gestion.inbox
    requires s'.workers.Keys <= s.workers.Keys && forall u :: u in s'.workers && u != w ==> s'.workers[u] == s.workers[u]
    requires w in s'.workers ==> WorkerBien(s', w)
    ensures Bien(s')
  {
    forall u | u in s'.workers ensures WorkerBien(s', u) {
      if u != w {
        WorkersIguales(s, s', u);
      }
    }
  }

  lemma {:induction false} PublicarMantiene(s: Estado, w: WorkerId)
    requires Bien(s)
    ensures Bien(Dar(s, Publicar(w)))
  {
    if Esta(s, w, PorPublicar) {
      assert WorkerBien(s, w);
      FilaMantiene(s, Dar(s, Publicar(w)), w, s.workers[w].cola[0].evento);
    }
  }

  lemma {:induction false} PublicarFallaMantiene(s: Estado, w: WorkerId)
    requires Bien(s)
    ensures Bien(Dar(s, PublicarFalla(w)))
  {
    if Esta(s, w, PorPublicar) {
      assert WorkerBien(s, w);
      FilaMantiene(s, Dar(s, PublicarFalla(w)), w, s.workers[w].cola[0].evento);
    }
  }

  lemma {:induction false} ReprogramarMantiene(s: Estado, w: WorkerId)
    requires Bien(s)
    ensures Bien(Dar(s, Reprogramar(w)))
  {
    if Esta(s, w, PorReprogramar) {
      assert WorkerBien(s, w);
      FilaMantiene(s, Dar(s, Reprogramar(w)), w, s.workers[w].cola[0].evento);
    }
  }

  lemma {:induction false} DarMantiene(s: Estado, p: Paso)
    requires Bien(s)
    ensures Bien(Dar(s, p))
  {
    match p
    case Pasar(_) =>
      forall w | w in s.workers ensures WorkerBien(Dar(s, p), w) {
        WorkersIguales(s, Dar(s, p), w);
      }
    case Alta(codigo, nombre, razon) => AltaMantiene(s, codigo, nombre, razon);
    case Reclamar(w, ids) => ReclamarMantiene(s, w, ids);
    case Entregar(w, respuesta) => EntregarMantiene(s, w, respuesta);
    case Publicar(w) => PublicarMantiene(s, w);
    case PublicarFalla(w) => PublicarFallaMantiene(s, w);
    case Reprogramar(w) => ReprogramarMantiene(s, w);
    case Caer(w) =>
      forall u | u in Dar(s, p).workers ensures WorkerBien(Dar(s, p), u) {
        WorkersIguales(s, Dar(s, p), u);
      }
  }

  lemma {:induction false} CorrerMantiene(s: Estado, ps: seq<Paso>)
    requires Bien(s)
    ensures Bien(Correr(s, ps))
  {
    if |ps| > 0 {
      CorrerMantiene(s, ps[..|ps| - 1]);
      DarMantiene(Correr(s, ps[..|ps| - 1]), ps[|ps| - 1]);
    }
  }

  // ------------------------------------------------------------------ what it guarantees

  /** In every interleaving of registrations, workers, failures and crashes: each tenant has one
      event, its own; a published event has its one PROCESADO inbox row and its tenant is
      projected as the event says; and management holds no tenant that was not delivered. */
  lemma {:induction false} PublicadoEstaProyectado(ps: seq<Paso>, i: nat)
    requires i < |Correr(INICIAL, ps).codigos|
    ensures var s := Correr(INICIAL, ps);
      && |s.eventos| == |s.codigos| && s.eventos[i].inquilinoId == i && s.eventos[i].carga.slug == s.codigos[i]
      && (s.eventos[i].publicadoEn.Some? ==>
            && i in s.gestion.inbox && s.gestion.inbox[i].estado == PROCESADO
            && i in s.gestion.tenants && s.gestion.tenants[i] == s.eventos[i].carga
            && i in s.gestion.controles && i in s.gestion.configuraciones && i in s.gestion.onboarding)
      && (i in s.gestion.tenants <==> i in s.gestion.inbox)
  {
    CorrerMantiene(INICIAL, ps);
  }

  /** Delivered messages, as one delivery of each. */
  function ProyeccionDe(eventos: seq<Evento>, entregados: set<nat>): map<TenantId, Carga>
    requires forall m :: m in entregados ==> m < |eventos|
  {
    map m | m in entregados :: eventos[m].carga
  }

  /** However often its events were redelivered, management is what one delivery of each leaves. */
  lemma {:induction false} GestionEsProyeccion(ps: seq<Paso>)
    ensures var s := Correr(INICIAL, ps);
      && (forall m :: m in s.gestion.inbox ==> m < |s.eventos|)
      && s.gestion.tenants == ProyeccionDe(s.eventos, s.gestion.inbox.Keys)
  {
    CorrerMantiene(INICIAL, ps);
  }

  /** Published rows are frozen, payloads never change, and nothing delivered is undone. */
  lemma {:induction false} PublicadosCongelados(s: Estado, p: Paso, i: nat)
    requires Bien(s) && i < |s.eventos|
    ensures i < |Dar(s, p).eventos| && Dar(s, p).eventos[i].carga == s.eventos[i].carga
    ensures s.eventos[i].publicadoEn.Some? ==> Dar(s, p).eventos[i] == s.eventos[i]
    ensures s.gestion.inbox.Keys <= Dar(s, p).gestion.inbox.Keys
  {
    if p.Reclamar? && LoteValido(s, p.ids) && i in p.ids {
      assert Reclamable(s.eventos[i], s.ahora);
    }
  }

  predicate Publicado(s: Estado, i: nat) {
    i < |s.eventos| && s.eventos[i].publicadoEn.Some?
  }

  /** No event is ever stuck: from any reachable state an idle worker can publish any event that
      is not published yet, once its wait and its lease have run out. */
  lemma {:induction false} NuncaAtascado(s: Estado, i: nat, w: WorkerId, segundos: nat)
    requires Bien(s) && i < |s.eventos| && s.eventos[i].publicadoEn == None && w !in s.workers
    requires s.ahora + segundos >= s.eventos[i].disponibleEn
    requires s.eventos[i].bloqueadoEn.Some? ==> s.ahora + segundos > s.eventos[i].bloqueadoEn.value + ARRENDAMIENTO
    ensures Publicado(Dar(Dar(Dar(Dar(s, Pasar(segundos)), Reclamar(w, [i])), Entregar(w, Hecho)), Publicar(w)), i)
  {
    var s1 := Dar(s, Pasar(segundos));
    assert [i][..0] == [];
    var s2 := Dar(s1, Reclamar(w, [i]));
    assert s2.workers[w].cola[0].evento == i && s2.eventos[i].publicadoEn == None;
    var s3 := Dar(s2, Entregar(w, Hecho));
    assert Esta(s3, w, PorPublicar);
  }
}
