/** AbstractDecorator: an object wrapped by a chain of decorators, and the recursive
    unwrapping back to the object that was originally decorated. */
module Decorators {
  import opened Exceptions

  /** An object as seen by the decorator code: either an object that is not a decorator,
      or an AbstractDecorator holding the object it decorates. */
  datatype Obj<T> = Plain(value: T) | Decorator(decorated: Obj<T>)

  /** `object instanceof ObjectDecorator`. */
  predicate IsDecorator<T>(o: Obj<T>) {
    o.Decorator?
  }

  /** The constructor: a null decorated object is rejected by `Validate.notNull`. */
  function NewDecorator<T>(decorated: Option<Obj<T>>): (r: Result<Obj<T>>)
    ensures r.Failure? <==> decorated.None?
    ensures r.Failure? ==> r.error == NullPointerException(ValidatedObjectIsNull)
    ensures r.Success? ==> IsDecorator(r.value)
  {
    match decorated
    case None => Failure(NullPointerException(ValidatedObjectIsNull))
    case Some(d) => Success(Decorator(d))
  }

  /** `getDecoratedObject`: the object one level down. */
  function GetDecoratedObject<T>(d: Obj<T>): (r: Obj<T>)
    requires IsDecorator(d)
    ensures r < d
  {
    d.decorated
  }

  /** The instance `getOriginalDecoratedObject`: unwraps what this decorator holds. */
  function OriginalDecoratedObject<T>(d: Obj<T>): (r: Obj<T>)
    requires IsDecorator(d)
    ensures !IsDecorator(r)
    ensures r == d || r < d
    decreases d, 0
  {
    OriginalOf(d.decorated)
  }

  /** The static `getOriginalDecoratedObject`: a decorator is asked for its original,
      anything else is its own original. */
  function OriginalOf<T>(o: Obj<T>): (r: Obj<T>)
    ensures !IsDecorator(r)
    ensures r == o || r < o
    decreases o, 1
  {
    if IsDecorator(o) then OriginalDecoratedObject(o) else o
  }

  /** `n` decorators wrapped around `o`. */
  function Wrap<T>(n: nat, o: Obj<T>): Obj<T> {
    if n == 0 then o else Decorator(Wrap(n - 1, o))
  }

  /** The number of decorators above the original. */
  function Depth<T>(o: Obj<T>): nat {
    match o
    case Plain(_) => 0
    case Decorator(d) => 1 + Depth(d)
  }

  /** Constructing a decorator and asking for the decorated object gives the argument back. */
  lemma ConstructThenGet<T>(x: Obj<T>)
    ensures NewDecorator(Some(x)).Success?
    ensures GetDecoratedObject(NewDecorator(Some(x)).value) == x
  {
  }

  /** A non-decorator is its own original. */
  lemma OriginalOfPlain<T>(v: T)
    ensures OriginalOf(Plain(v)) == Plain(v)
  {
  }

  /** The original of a decorator is the original of the object it decorates. */
  lemma OriginalThroughDecorator<T>(d: Obj<T>)
    requires IsDecorator(d)
    ensures OriginalOf(d) == OriginalOf(GetDecoratedObject(d))
    ensures OriginalDecoratedObject(d) == OriginalOf(d)
  {
  }

  /** Unwrapping is idempotent. */
  lemma OriginalIdempotent<T>(o: Obj<T>)
    ensures OriginalOf(OriginalOf(o)) == OriginalOf(o)
  {
  }

  /** Wrapping in any number of decorators does not change the original. */
  lemma {:induction false} OriginalOfWrap<T>(n: nat, o: Obj<T>)
    ensures OriginalOf(Wrap(n, o)) == OriginalOf(o)
  {
    if n > 0 {
      OriginalOfWrap(n - 1, o);
    }
  }

  /** Every object is its original under `Depth` decorators: the whole chain is peeled. */
  lemma {:induction false} ChainDecomposition<T>(o: Obj<T>)
    ensures o == Wrap(Depth(o), OriginalOf(o))
  {
    match o
    case Plain(_) =>
    case Decorator(d) =>
      ChainDecomposition(d);
  }
}
