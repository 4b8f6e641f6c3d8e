/** Results and failures shared by every service of the model. */
module Comun {

  datatype Option<+T> = None | Some(value: T)
  {
    function GetOr(default: T): T {
      match this
      case None => default
      case Some(v) => v
    }
  }

  /** Why a request is refused: the exception classes the services throw, plus the
      constraint violations the database raises by itself. */
  datatype Error =
    | Invalido        // request validation, BadRequestException
    | NoEncontrado    // NotFoundException, or a foreign key that names no row
    | Conflicto       // ConflictException
    | ClaveRepetida   // a unique index refused the row
    | Restringido     // a CHECK constraint refused the row

  datatype Resultado<+T> = Ok(value: T) | Err(error: Error)
  {
    predicate IsFailure() { Err? }

    function PropagateFailure<U>(): Resultado<U>
      requires Err?
    {
      Err(error)
    }

    function Extract(): T
      requires Ok?
    {
      value
    }

    function GetOr(default: T): T {
      match this
      case Ok(v) => v
      case Err(_) => default
    }
  }

  /** A loop over `xs` that stops at the first failing step. */
  function Plegar<S, T>(s: S, xs: seq<T>, paso: (S, T) -> Resultado<S>): Resultado<S> {
    if |xs| == 0 then Ok(s)
    else
      var s1 :- Plegar(s, xs[..|xs| - 1], paso);
      paso(s1, xs[|xs| - 1])
  }

  /** Once a prefix has failed, the whole loop fails in the same way. */
  lemma {:induction false} PlegarFalla<S, T>(s: S, xs: seq<T>, i: nat, paso: (S, T) -> Resultado<S>)
    requires i <= |xs| && Plegar(s, xs[..i], paso).Err?
    ensures Plegar(s, xs, paso) == Plegar(s, xs[..i], paso)
  {
    if i == |xs| {
      assert xs[..i] == xs;
    } else {
      assert xs[..|xs| - 1][..i] == xs[..i];
      PlegarFalla(s, xs[..|xs| - 1], i, paso);
    }
  }

  lemma {:induction false} PlegarUno<S, T>(s: S, x: T, paso: (S, T) -> Resultado<S>)
    ensures Plegar(s, [x], paso) == paso(s, x)
  {
    assert [x][..0] == [];
  }

  /** Two loops in a row are one loop over both lists. */
  lemma {:induction false} PlegarConcat<S, T>(s: S, xs: seq<T>, ys: seq<T>, paso: (S, T) -> Resultado<S>)
    requires Plegar(s, xs, paso).Ok?
    ensures Plegar(s, xs + ys, paso) == Plegar(Plegar(s, xs, paso).value, ys, paso)
  {
    if |ys| == 0 {
      assert xs + ys == xs;
    } else {
      assert (xs + ys)[..|xs + ys| - 1] == xs + ys[..|ys| - 1];
      PlegarConcat(s, xs, ys[..|ys| - 1], paso);
    }
  }

  /** What every turn keeps, the loop keeps. */
  lemma {:induction false} PlegarConserva<S(!new), T(!new)>(s: S, xs: seq<T>, paso: (S, T) -> Resultado<S>, P: S -> bool)
    requires P(s)
    requires forall z, x {:trigger paso(z, x)} :: x in xs && P(z) && paso(z, x).Ok? ==> P(paso(z, x).value)
    ensures Plegar(s, xs, paso).Ok? ==> P(Plegar(s, xs, paso).value)
  {
    if |xs| > 0 && Plegar(s, xs, paso).Ok? {
      PlegarConserva(s, xs[..|xs| - 1], paso, P);
      assert xs[|xs| - 1] in xs;
    }
  }

  /** One more turn of the loop. */
  lemma {:induction false} PlegarPaso<S, T>(s: S, xs: seq<T>, i: nat, paso: (S, T) -> Resultado<S>)
    requires i < |xs| && Plegar(s, xs[..i], paso).Ok?
    ensures Plegar(s, xs[..i + 1], paso) == paso(Plegar(s, xs[..i], paso).value, xs[i])
  {
    assert xs[..i + 1][..i] == xs[..i];
  }
}
