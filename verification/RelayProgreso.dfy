/** The relay of tenants from end to end: what a registration puts in the outbox reaches management as it
    was written, who may claim a row and when, and how long a failed delivery waits. */
module RelayProgreso {
  import opened Comun
  import opened RelayTenant

  // ------------------------------------------------------------------ what was registered is what arrives

  /** Row n of the outbox, as the registration of a tenant leaves it. */
  predicate EventoDeAlta(e: Evento, n: nat, codigo: string, nombre: string, razonSocial: string) {
    && e.inquilinoId == n && e.carga.tenantId == n && e.carga.slug == codigo
    && e.carga.nombreVisible == nombre && e.carga.razonSocial == razonSocial
  }

  /** A registration is refused exactly when another tenant has the code; otherwise the tenant and its event
      are written together, and the event can be claimed at once. */
  lemma {:induction false} RegistrarSii(s: Estado, codigo: string, nombre: string, razonSocial: string)
    requires EventosBien(s)
    ensures Registrar(s, codigo, nombre, razonSocial).Ok? <==> forall i :: 0 <= i < |s.eventos| ==> s.eventos[i].carga.slug != codigo
    ensures Registrar(s, codigo, nombre, razonSocial).Ok? ==>
      var s', n := Registrar(s, codigo, nombre, razonSocial).value, |s.codigos|;
      && s'.codigos == s.codigos + [codigo] && |s'.eventos| == n + 1 && s'.eventos[..n] == s.eventos
      && EventoDeAlta(s'.eventos[n], n, codigo, nombre, razonSocial)
      && s'.eventos[n].intentos == 0 && Reclamable(s'.eventos[n], s'.ahora)
      && s'.gestion == s.gestion && s'.workers == s.workers && s'.ahora == s.ahora
  {
    if codigo in s.codigos {
      var i :| 0 <= i < |s.codigos| && s.codigos[i] == codigo;
      assert s.eventos[i].carga.slug == codigo;
    }
  }

  lemma {:induction false} CargaPaso(s: Estado, p: Paso, i: nat)
    requires i < |s.eventos|
    ensures i < |Dar(s, p).eventos|
    ensures Dar(s, p).eventos[i].carga == s.eventos[i].carga && Dar(s, p).eventos[i].inquilinoId == s.eventos[i].inquilinoId
  {
  }

  lemma {:induction false} CargaQueda(s: Estado, ps: seq<Paso>, i: nat)
    requires i < |s.eventos|
    ensures i < |Correr(s, ps).eventos|
    ensures Correr(s, ps).eventos[i].carga == s.eventos[i].carga && Correr(s, ps).eventos[i].inquilinoId == s.eventos[i].inquilinoId
  {
    if |ps| > 0 {
      CargaQueda(s, ps[..|ps| - 1], i);
      CargaPaso(Correr(s, ps[..|ps| - 1]), ps[|ps| - 1], i);
    }
  }

  /** After a registration, in every continuation: its event still says what was registered, and once it is
      published management has the tenant under that code and those names, with its control, its
      configuration and its onboarding. */
  lemma {:induction false} AltaLlega(ps: seq<Paso>, codigo: string, nombre: string, razonSocial: string, qs: seq<Paso>)
    ensures var s := Correr(INICIAL, ps);
      Registrar(s, codigo, nombre, razonSocial).Ok? ==>
        var n, fin := |s.codigos|, Correr(Registrar(s, codigo, nombre, razonSocial).value, qs);
        && n < |fin.eventos| && EventoDeAlta(fin.eventos[n], n, codigo, nombre, razonSocial)
        && (fin.eventos[n].publicadoEn.Some? ==>
              && n in fin.gestion.tenants && n in fin.gestion.controles && n in fin.gestion.configuraciones && n in fin.gestion.onboarding
              && fin.gestion.tenants[n].slug == codigo && fin.gestion.tenants[n].nombreVisible == nombre
              && fin.gestion.tenants[n].razonSocial == razonSocial)
  {
    var s := Correr(INICIAL, ps);
    CorrerMantiene(INICIAL, ps);
    if Registrar(s, codigo, nombre, razonSocial).Ok? {
      var s' := Registrar(s, codigo, nombre, razonSocial).value;
      RegistrarSii(s, codigo, nombre, razonSocial);
      AltaMantiene(s, codigo, nombre, razonSocial);
      CargaQueda(s', qs, |s.codigos|);
      CorrerMantiene(s', qs);
    }
  }

  // ------------------------------------------------------------------ waiting

  /** One minute after no attempt, twice as long after each one more, and never more than an hour. */
  lemma {:induction false} EsperaDobla(n: nat)
    ensures Espera(0) == 60
    ensures Espera(n + 1) == if 2 * Espera(n) <= 3600 then 2 * Espera(n) else 3600
  {
    if n <= 5 {
      assert Potencia2(0) == 1 && Potencia2(1) == 2 && Potencia2(2) == 4;
      assert Potencia2(3) == 8 && Potencia2(4) == 16 && Potencia2(5) == 32;
    }
  }

  /** A delivery that failed leaves its row unpublished and free, to be claimed again only after the wait of
      its attempt; no other row is touched. */
  lemma {:induction false} ReprogramaExacto(s: Estado, w: WorkerId)
    requires Esta(s, w, PorReprogramar) && s.eventos[s.workers[w].cola[0].evento].publicadoEn == None
    ensures var t, s' := s.workers[w].cola[0], Dar(s, Reprogramar(w));
      var e, e' := s.eventos[t.evento], s'.eventos[t.evento];
      && s'.gestion == s.gestion && |s'.eventos| == |s.eventos|
      && (forall i :: 0 <= i < |s.eventos| && i != t.evento ==> s'.eventos[i] == s.eventos[i])
      && e'.publicadoEn == None && e'.bloqueadoEn == None && e'.intentos == e.intentos
      && e'.disponibleEn == s.ahora + Espera(t.intentos)
      && (forall hora: nat :: hora >= s.ahora ==> (Reclamable(e', hora) <==> hora >= s.ahora + Espera(t.intentos)))
  {
  }

  /** A delivery that failed before commit leaves management as it was; one that committed projects the
      tenant, whether or not the worker hears of it; and only a worker that heard goes on to publish. */
  lemma {:induction false} EntregaExacta(s: Estado, w: WorkerId, respuesta: Respuesta)
    requires Bien(s) && Esta(s, w, PorEntregar)
    ensures var e, s' := s.workers[w].cola[0].evento, Dar(s, Entregar(w, respuesta));
      && s'.eventos == s.eventos
      && (respuesta == Fallo ==> s'.gestion == s.gestion)
      && (respuesta != Fallo ==> e in s'.gestion.tenants && s'.gestion.tenants[e] == s.eventos[e].carga)
      && (s'.workers[w].fase == PorPublicar <==> respuesta == Hecho)
  {
    ConsumirMantiene(s, s.workers[w].cola[0].evento);
  }

  /** A delivered event is published at once and its row released; if that fails, the row is given back
      instead, to be delivered again after its wait. */
  lemma {:induction false} PublicaExacta(s: Estado, w: WorkerId)
    requires Esta(s, w, PorPublicar) && s.eventos[s.workers[w].cola[0].evento].publicadoEn == None
    ensures var t, s' := s.workers[w].cola[0], Dar(s, Publicar(w));
      && s'.gestion == s.gestion
      && s'.eventos == s.eventos[t.evento := s.eventos[t.evento].(publicadoEn := Some(s.ahora), bloqueadoEn := None)]
    ensures var t, s' := s.workers[w].cola[0], Dar(Dar(s, PublicarFalla(w)), Reprogramar(w));
      && s'.gestion == s.gestion
      && s'.eventos == s.eventos[t.evento := s.eventos[t.evento].(bloqueadoEn := None, disponibleEn := s.ahora + Espera(t.intentos))]
  {
  }

  // ------------------------------------------------------------------ leases

  /** Somebody publishes event i or gives it back. */
  predicate Suelta(s: Estado, p: Paso, i: nat) {
    || (p.Publicar? && Esta(s, p.worker, PorPublicar) && s.workers[p.worker].cola[0].evento == i)
    || (p.Reprogramar? && Esta(s, p.worker, PorReprogramar) && s.workers[p.worker].cola[0].evento == i)
  }

  predicate NadieSuelta(s: Estado, ps: seq<Paso>, i: nat) {
    |ps| > 0 ==> NadieSuelta(s, ps[..|ps| - 1], i) && !Suelta(Correr(s, ps[..|ps| - 1]), ps[|ps| - 1], i)
  }

  /** A claimed row that its worker has neither published nor given back is claimed by nobody else for two
      minutes. */
  lemma {:induction false} ArrendamientoExclusivo(s: Estado, ps: seq<Paso>, i: nat, t: nat)
    requires i < |s.eventos| && s.eventos[i].bloqueadoEn == Some(t) && NadieSuelta(s, ps, i)
    ensures var s' := Correr(s, ps);
      && i < |s'.eventos|
      && (s'.ahora <= t + 120 ==>
            && s'.eventos[i].bloqueadoEn == Some(t) && s'.eventos[i].intentos == s.eventos[i].intentos
            && !Reclamable(s'.eventos[i], s'.ahora))
  {
    if |ps| > 0 {
      ArrendamientoExclusivo(s, ps[..|ps| - 1], i, t);
    }
  }

  /** A claim takes rows nobody holds, leases them from now, and counts one attempt on each. */
  lemma {:induction false} ReclamoExacto(s: Estado, w: WorkerId, ids: seq<nat>)
    requires w !in s.workers && |ids| > 0 && LoteValido(s, ids)
    ensures var s' := Dar(s, Reclamar(w, ids));
      && |ids| <= 10 && s'.gestion == s.gestion && |s'.eventos| == |s.eventos|
      && w in s'.workers && |s'.workers[w].cola| == |ids| && s'.workers[w].fase == PorEntregar
      && (forall k :: 0 <= k < |ids| ==>
            && s.eventos[ids[k]].publicadoEn == None && s.eventos[ids[k]].disponibleEn <= s.ahora
            && s'.eventos[ids[k]].bloqueadoEn == Some(s.ahora) && s'.eventos[ids[k]].intentos == s.eventos[ids[k]].intentos + 1
            && s'.workers[w].cola[k] == Trabajo(ids[k], s.eventos[ids[k]].intentos + 1))
      && (forall j :: 0 <= j < |s.eventos| && j !in ids ==> s'.eventos[j] == s.eventos[j])
  {
    var s' := Dar(s, Reclamar(w, ids));
    forall k | 0 <= k < |ids|
      ensures && s.eventos[ids[k]].publicadoEn == None && s.eventos[ids[k]].disponibleEn <= s.ahora
              && s'.eventos[ids[k]].bloqueadoEn == Some(s.ahora) && s'.eventos[ids[k]].intentos == s.eventos[ids[k]].intentos + 1
              && s'.workers[w].cola[k] == Trabajo(ids[k], s.eventos[ids[k]].intentos + 1) {
      assert ids[k] in ids;
      assert Reclamable(s.eventos[ids[k]], s.ahora);
    }
  }
}
