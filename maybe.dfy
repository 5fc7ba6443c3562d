/** The optional-value container of src/maybe.ts.

    A `Maybe<A>` is either `Nothing` or `Just(val)`. Every operation of the
    TypeScript class hierarchy (the abstract `Maybe` and its two subclasses
    `Nothing` and `Just`) is a total, pure function here, written as one
    case per variant exactly as the two subclasses implement it. The
    exported constructors `just(v)` and `nothing()` are the datatype
    constructors `Just(v)` and `Nothing`.
 */
module Maybes {

  /** The closed two-variant union: no third state exists. */
  datatype Maybe<A> = Nothing | Just(val: A)

  /** `of` wraps a value; it always builds `Just`. */
  function Of<A>(v: A): (r: Maybe<A>)
    ensures r.Just? && r.val == v
  {
    Just(v)
  }

  /** `match` runs exactly the branch that belongs to the variant. */
  function Match<A, K>(m: Maybe<A>, onNothing: () -> K, onJust: A -> K): (r: K)
    ensures m.Nothing? ==> r == onNothing()
    ensures m.Just? ==> r == onJust(m.val)
  {
    match m
    case Nothing => onNothing()
    case Just(v) => onJust(v)
  }

  /** `map` applies `f` to the payload of `Just`; `Nothing` stays `Nothing`. */
  function Map<A, B>(m: Maybe<A>, f: A -> B): (r: Maybe<B>)
    ensures r.Just? <==> m.Just?
    ensures r.Just? ==> r.val == f(m.val)
  {
    match m
    case Nothing => Nothing
    case Just(v) => Just(f(v))
  }

  /** `mapTo` replaces the payload of `Just` by `b`; `Nothing` stays `Nothing`. */
  function MapTo<A, B>(m: Maybe<A>, b: B): (r: Maybe<B>)
    ensures r.Just? <==> m.Just?
    ensures r.Just? ==> r.val == b
  {
    match m
    case Nothing => Nothing
    case Just(_) => Just(b)
  }

  /** `chain` sequences a dependent optional computation; `Nothing` short-circuits. */
  function Chain<A, B>(m: Maybe<A>, f: A -> Maybe<B>): (r: Maybe<B>)
    ensures m.Nothing? ==> r.Nothing?
    ensures m.Just? ==> r == f(m.val)
  {
    match m
    case Nothing => Nothing
    case Just(v) => f(v)
  }

  /** `flatten` removes one level of nesting. The TypeScript method ignores
      its receiver in both subclasses and works on its argument alone, so
      it is a one-argument function here. */
  function Flatten<B>(mm: Maybe<Maybe<B>>): (r: Maybe<B>)
    ensures r.Just? <==> mm.Just? && mm.val.Just?
    ensures r.Just? ==> r.val == mm.val.val
  {
    match mm
    case Nothing => Nothing
    case Just(inner) => inner
  }

  /** `lift` at arity 1 as intended: `Just(f(v))` when the argument is
      present, and the value `Nothing` otherwise, which is what the declared
      `Maybe` result type and `flatten`'s own use of `nothing()` call for. */
  function Lift1<T1, R>(f: T1 -> R, m: Maybe<T1>): (r: Maybe<R>)
    ensures r.Just? <==> m.Just?
    ensures r.Just? ==> r.val == f(m.val)
  {
    if m.Just? then Just(f(m.val)) else Nothing
  }

  /** `lift` at arity 2 as intended: `Just(f(v1, v2))` exactly when both
      arguments are present, the value `Nothing` otherwise. */
  function Lift2<T1, T2, R>(f: (T1, T2) -> R, m1: Maybe<T1>, m2: Maybe<T2>): (r: Maybe<R>)
    ensures r.Just? <==> m1.Just? && m2.Just?
    ensures r.Just? ==> r.val == f(m1.val, m2.val)
  {
    if m1.Just? && m2.Just? then Just(f(m1.val, m2.val)) else Nothing
  }

  /** `lift` at arity 3 as intended: `Just(f(v1, v2, v3))` exactly when all
      three arguments are present, the value `Nothing` otherwise. */
  function Lift3<T1, T2, T3, R>(f: (T1, T2, T3) -> R, m1: Maybe<T1>, m2: Maybe<T2>, m3: Maybe<T3>): (r: Maybe<R>)
    ensures r.Just? <==> m1.Just? && m2.Just? && m3.Just?
    ensures r.Just? ==> r.val == f(m1.val, m2.val, m3.val)
  {
    if m1.Just? && m2.Just? && m3.Just? then Just(f(m1.val, m2.val, m3.val)) else Nothing
  }

  /** What `lift` returns as written: on an absent argument each arm of its
      switch returns the exported function `nothing` itself, not the value
      `nothing()`, so the result is either a `Maybe` or that function. */
  datatype LiftResult<R> = Value(m: Maybe<R>) | NothingFunction

  /** `lift` at arity 1 as written: the function `nothing` for an absent argument. */
  function Lift1AsWritten<T1, R>(f: T1 -> R, m: Maybe<T1>): (r: LiftResult<R>)
    ensures r.NothingFunction? <==> m.Nothing?
    ensures r.Value? ==> r.m == Just(f(m.val))
  {
    if m.Just? then Value(Just(f(m.val))) else NothingFunction
  }

  /** `lift` at arity 2 as written: the function `nothing` when either argument is absent. */
  function Lift2AsWritten<T1, T2, R>(f: (T1, T2) -> R, m1: Maybe<T1>, m2: Maybe<T2>): (r: LiftResult<R>)
    ensures r.NothingFunction? <==> m1.Nothing? || m2.Nothing?
    ensures r.Value? ==> r.m == Just(f(m1.val, m2.val))
  {
    if m1.Just? && m2.Just? then Value(Just(f(m1.val, m2.val))) else NothingFunction
  }

  /** `lift` at arity 3 as written: the function `nothing` when any argument is absent. */
  function Lift3AsWritten<T1, T2, T3, R>(f: (T1, T2, T3) -> R, m1: Maybe<T1>, m2: Maybe<T2>, m3: Maybe<T3>): (r: LiftResult<R>)
    ensures r.NothingFunction? <==> m1.Nothing? || m2.Nothing? || m3.Nothing?
    ensures r.Value? ==> r.m == Just(f(m1.val, m2.val, m3.val))
  {
    if m1.Just? && m2.Just? && m3.Just? then Value(Just(f(m1.val, m2.val, m3.val))) else NothingFunction
  }

  /** `lift` dispatches on the arity of `f`, from 1 to 3, and tests exactly
      that many arguments for presence. `AllPresent` states that test for a
      list of arguments of one type: it collects the payloads in order, or
      yields `Nothing` as soon as one argument is absent. It is related to
      `lift` only for lists of length 1 to 3. */
  function AllPresent<A>(ms: seq<Maybe<A>>): (r: Maybe<seq<A>>)
    ensures r.Just? <==> forall i :: 0 <= i < |ms| ==> ms[i].Just?
    ensures r.Just? ==> |r.val| == |ms| && forall i :: 0 <= i < |ms| ==> r.val[i] == ms[i].val
  {
    if ms == [] then Just([])
    else
      match ms[0]
      case Nothing => Nothing
      case Just(v) =>
        var rest := AllPresent(ms[1..]);
        if rest.Just? then Just([v] + rest.val) else Nothing
  }

  /** `fold(f, acc)` as both subclasses implement it (the function first,
      then the accumulator; the abstract declaration lists them the other
      way round): `acc` for `Nothing`, `f(val, acc)` for `Just`. */
  function Fold<A, B>(m: Maybe<A>, f: (A, B) -> B, acc: B): (r: B)
    ensures m.Nothing? ==> r == acc
    ensures m.Just? ==> r == f(m.val, acc)
  {
    match m
    case Nothing => acc
    case Just(v) => f(v, acc)
  }

  /** `foldMapId(id, f)`: the identity element for `Nothing`, and `f(val)`
      alone for `Just` (the identity element is not combined in). */
  function FoldMapId<A, M>(m: Maybe<A>, id: M, f: A -> M): (r: M)
    ensures m.Nothing? ==> r == id
    ensures m.Just? ==> r == f(m.val)
  {
    match m
    case Nothing => id
    case Just(v) => f(v)
  }

  /** The monoid constructor that `foldMap` receives: it supplies the
      monoid's identity element and builds a monoid element from a payload. */
  datatype MonoidConstructor<!A, M> = MonoidConstructor(identity: M, make: A -> M)

  /** `foldMap(c)`: `c.identity()` for `Nothing`, `c(val)` for `Just`. */
  function FoldMap<A, M>(m: Maybe<A>, c: MonoidConstructor<A, M>): (r: M)
    ensures m.Nothing? ==> r == c.identity
    ensures m.Just? ==> r == c.make(m.val)
  {
    match m
    case Nothing => c.identity
    case Just(v) => c.make(v)
  }

  /** `size`: the number of payloads held, 0 or 1. */
  function Size<A>(m: Maybe<A>): (r: int)
    ensures 0 <= r <= 1
    ensures r == 1 <==> m.Just?
  {
    match m
    case Nothing => 0
    case Just(_) => 1
  }

  /** `traverse(a, f)` into an applicative whose `of` and `map` are passed
      explicitly: `FB` is the applicative over `B`, `FMB` the applicative over
      `Maybe<B>`. For `Nothing` it lifts `Nothing` with `of` and never calls
      `f`; for `Just(v)` it maps `just` over `f(v)`. */
  function Traverse<A, B, FB, FMB>(m: Maybe<A>, of: Maybe<B> -> FMB, fmap: (FB, B -> Maybe<B>) -> FMB, f: A -> FB): (r: FMB)
    ensures m.Nothing? ==> r == of(Nothing)
    ensures m.Just? ==> r == fmap(f(m.val), b => Just(b))
  {
    match m
    case Nothing => of(Nothing)
    case Just(v) => fmap(f(v), b => Just(b))
  }
}
