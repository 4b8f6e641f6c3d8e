/** The lock on a series: only active series give numbers, a lock belongs to a transaction that is under
    way, and whoever asks for the number of a free series gets the next one. */
module Turnos {
  import opened Comun
  import opened Series

  /** Whoever holds the lock of a series is under way with it, and the series is active. */
  ghost predicate LocksVivos(s: Estado) {
    && (forall id :: id in s.series && s.series[id].lock.Some? ==>
          var t := s.series[id].lock.value; t in s.txs && s.txs[t].serie == id && TieneLock(s.txs[t]))
    && (forall t :: t in s.txs && TieneLock(s.txs[t]) ==>
          s.txs[t].serie in s.series && s.series[s.txs[t].serie].lock == Some(t) && s.series[s.txs[t].serie].activa)
  }

  lemma {:induction false} TerminarVivo(s: Estado, t: TxId)
    requires LocksVivos(s) && t in s.txs
    ensures LocksVivos(Terminar(s, t))
  {
  }

  lemma {:induction false} FaseViva(s: Estado, t: TxId, fase: Fase)
    requires LocksVivos(s) && t in s.txs && TieneLock(s.txs[t].(fase := fase)) == TieneLock(s.txs[t])
    ensures LocksVivos(s.(txs := s.txs[t := s.txs[t].(fase := fase)]))
  {
  }

  lemma {:induction false} BloquearVivo(s: Estado, t: TxId)
    requires LocksVivos(s)
    ensures LocksVivos(Dar(s, Bloquear(t)))
  {
    if t in s.txs && s.txs[t].fase.SinPrevio? && (s.txs[t].serie !in s.series || (s.series[s.txs[t].serie].lock == None && !s.series[s.txs[t].serie].activa)) {
      TerminarVivo(s, t);
    }
  }

  lemma {:induction false} ConfirmarVivo(s: Estado, t: TxId)
    requires LocksVivos(s)
    ensures LocksVivos(Dar(s, Confirmar(t)))
  {
  }

  lemma {:induction false} DarVivo(s: Estado, p: Paso)
    requires LocksVivos(s)
    ensures LocksVivos(Dar(s, p))
  {
    if Dar(s, p) != s {
      match p
      case CrearSerie(_, _) =>
      case CambiarEstado(_, _) =>
      case Iniciar(_, _, _) =>
      case VerClave(t) =>
        if ClaveConfirmada(s.docs, s.txs[t].clave) { TerminarVivo(s, t); } else { FaseViva(s, t, SinPrevio); }
      case Bloquear(t) => BloquearVivo(s, t);
      case Incrementar(t) => FaseViva(s, t, Incremento(s.txs[t].fase.leido));
      case Insertar(t) =>
        if ClaveConfirmada(s.docs, s.txs[t].clave) { TerminarVivo(s, t); } else { FaseViva(s, t, Insercion(s.txs[t].fase.leido)); }
      case Confirmar(t) => ConfirmarVivo(s, t);
      case Abortar(t) => TerminarVivo(s, t);
    }
  }

  lemma {:induction false} CorrerVivo(ps: seq<Paso>)
    ensures LocksVivos(Correr(ps))
  {
    if |ps| > 0 {
      CorrerVivo(ps[..|ps| - 1]);
      DarVivo(Correr(ps[..|ps| - 1]), ps[|ps| - 1]);
    }
  }

  /** In every interleaving only an active series gives a number: the step that commits a document finds its
      series active, takes its next number and leaves the following one. */
  lemma {:induction false} SoloActivasDan(ps: seq<Paso>, p: Paso)
    ensures var s := Correr(ps);
      var s' := Dar(s, p);
      s'.docs != s.docs ==>
        && |s'.docs| == |s.docs| + 1 && s'.docs[..|s.docs|] == s.docs
        && var d := s'.docs[|s.docs|];
           && d.serie in s.series && s.series[d.serie].activa && d.numero == s.series[d.serie].nextNumber
           && s'.series[d.serie].nextNumber == d.numero + 1
  {
    CorrerVivo(ps);
    CorrerMantiene(ps);
    var s := Correr(ps);
    if p.Confirmar? && p.tx in s.txs {
      assert LockBien(s, p.tx);
    }
  }

  /** A lock is never left behind: its holder can finish, and once it gives up the series is free. */
  lemma {:induction false} LockSeSuelta(ps: seq<Paso>, id: SerieId)
    ensures var s := Correr(ps);
      id in s.series && s.series[id].lock.Some? ==>
        var s' := Dar(s, Abortar(s.series[id].lock.value));
        id in s'.series && s'.series[id].lock == None && s'.series[id].nextNumber == s.series[id].nextNumber && s'.docs == s.docs
  {
    CorrerVivo(ps);
  }

  /** The steps of one transaction that nobody gets in the way of. */
  function Tomar(s: Estado, t: TxId, id: SerieId, clave: Option<string>): Estado {
    var visto := Dar(Dar(s, Iniciar(t, id, clave)), VerClave(t));
    Dar(Dar(Dar(Dar(visto, Bloquear(t)), Incrementar(t)), Insertar(t)), Confirmar(t))
  }

  lemma {:induction false} LlegaAInsertar(s: Estado, t: TxId, id: SerieId, clave: Option<string>)
    requires t !in s.txs && id in s.series && s.series[id].activa && s.series[id].lock == None
    requires !ClaveConfirmada(s.docs, clave)
    ensures var s' := Dar(Dar(Dar(Dar(s, Iniciar(t, id, clave)), VerClave(t)), Bloquear(t)), Incrementar(t));
      && s'.docs == s.docs && s'.txs == s.txs[t := Tx(id, clave, Incremento(s.series[id].nextNumber))]
      && s'.series == s.series[id := s.series[id].(lock := Some(t))]
  {
    var s2 := Dar(Dar(s, Iniciar(t, id, clave)), VerClave(t));
    assert s2 == s.(txs := s.txs[t := Tx(id, clave, SinPrevio)]);
    var s3 := Dar(s2, Bloquear(t));
    assert s3.txs[t] == Tx(id, clave, Bloqueo(s.series[id].nextNumber));
  }

  /** Whoever asks for the number of a free, active series under a key nobody has used or is using gets the
      next one, and leaves the series free at the one after. */
  lemma {:induction false} TurnoSeguro(s: Estado, t: TxId, id: SerieId, clave: Option<string>)
    requires t !in s.txs && id in s.series && s.series[id].activa && s.series[id].lock == None
    requires !ClaveConfirmada(s.docs, clave) && !ClaveEnCurso(s.txs, t, clave)
    ensures var s' := Tomar(s, t, id, clave);
      && s'.docs == s.docs + [Doc(id, s.series[id].nextNumber, clave)] && t !in s'.txs
      && s'.series == s.series[id := s.series[id].(nextNumber := s.series[id].nextNumber + 1)]
  {
    LlegaAInsertar(s, t, id, clave);
    var s4 := Dar(Dar(Dar(Dar(s, Iniciar(t, id, clave)), VerClave(t)), Bloquear(t)), Incrementar(t));
    assert !ClaveEnCurso(s4.txs, t, clave);
    var s5 := Dar(s4, Insertar(t));
    assert s5.txs[t] == Tx(id, clave, Insercion(s.series[id].nextNumber));
  }
}
