/** The laws the optional-value container of src/maybe.ts satisfies:
    the functor and monad laws, the relation between `chain`, `map` and
    `flatten`, the short-circuit behaviour of `lift`, and what the folds and
    `size` compute. */
module MaybeLaws {
  import opened Maybes

  /** `match` with the two constructors rebuilds its argument, and `map` is
      `match` that re-wraps the transformed payload. */
  lemma MatchIsEliminator<A, B>(m: Maybe<A>, f: A -> B)
    ensures Match(m, () => Nothing, v => Just(v)) == m
    ensures Map(m, f) == Match(m, () => Nothing, v => Just(f(v)))
  {
  }

  /** `Nothing` never calls the function it is given: the result of `map`,
      `chain`, `fold`, `foldMapId` and `traverse` on `Nothing` does not
      depend on that function. */
  lemma NothingIgnoresFunction<A, B, FB, FMB>(f: A -> B, g: A -> B, k: A -> Maybe<B>, l: A -> Maybe<B>,
                                             h: (A, B) -> B, j: (A, B) -> B, acc: B,
                                             of: Maybe<B> -> FMB, fmap: (FB, B -> Maybe<B>) -> FMB, t: A -> FB, u: A -> FB)
    ensures Map(Nothing, f) == Map(Nothing, g) == Nothing
    ensures Chain(Nothing, k) == Chain(Nothing, l) == Nothing
    ensures Fold(Nothing, h, acc) == Fold(Nothing, j, acc) == acc
    ensures FoldMapId(Nothing, acc, f) == FoldMapId(Nothing, acc, g) == acc
    ensures Traverse(Nothing, of, fmap, t) == Traverse(Nothing, of, fmap, u) == of(Nothing)
  {
  }

  // ---------------------------------------------------------------------
  // Functor laws

  /** Identity law: mapping the identity function changes nothing. */
  lemma MapIdentity<A>(m: Maybe<A>)
    ensures Map(m, x => x) == m
  {
  }

  /** Composition law: mapping `f` then `g` is mapping `g ∘ f` once. */
  lemma MapComposition<A, B, C>(m: Maybe<A>, f: A -> B, g: B -> C)
    ensures Map(Map(m, f), g) == Map(m, x => g(f(x)))
  {
  }

  /** `mapTo(b)` is `map` of the constant function `_ => b`. */
  lemma MapToIsMapConst<A, B>(m: Maybe<A>, b: B)
    ensures MapTo(m, b) == Map(m, _ => b)
  {
  }

  // ---------------------------------------------------------------------
  // Monad laws

  /** Left identity: `of(x).chain(f) == f(x)`, because `of` builds `Just`. */
  lemma ChainLeftIdentity<A, B>(x: A, f: A -> Maybe<B>)
    ensures Chain(Of(x), f) == f(x)
  {
  }

  /** Right identity: `m.chain(of) == m`. */
  lemma ChainRightIdentity<A>(m: Maybe<A>)
    ensures Chain(m, x => Of(x)) == m
  {
  }

  /** Associativity: `m.chain(f).chain(g) == m.chain(x => f(x).chain(g))`. */
  lemma ChainAssociative<A, B, C>(m: Maybe<A>, f: A -> Maybe<B>, g: B -> Maybe<C>)
    ensures Chain(Chain(m, f), g) == Chain(m, x => Chain(f(x), g))
  {
  }

  /** `map` is derived from the monad operations: `map(f) == chain(x => of(f(x)))`. */
  lemma MapFromChain<A, B>(m: Maybe<A>, f: A -> B)
    ensures Map(m, f) == Chain(m, x => Of(f(x)))
  {
  }

  // ---------------------------------------------------------------------
  // flatten

  /** `flatten` by case: an absent outer or inner layer gives `Nothing`,
      two present layers give the inner value. */
  lemma FlattenCases<B>(x: B)
    ensures Flatten<B>(Nothing) == Nothing
    ensures Flatten<B>(Just(Nothing)) == Nothing
    ensures Flatten(Just(Just(x))) == Just(x)
  {
  }

  /** `flatten` is `chain` of the identity, and `chain` is `flatten` after `map`. */
  lemma FlattenChain<A, B>(mm: Maybe<Maybe<B>>, m: Maybe<A>, f: A -> Maybe<B>)
    ensures Flatten(mm) == Chain(mm, x => x)
    ensures Chain(m, f) == Flatten(Map(m, f))
  {
  }

  /** `flatten` after `of` and after `map(of)` both undo the wrapping. */
  lemma FlattenUnits<B>(m: Maybe<B>)
    ensures Flatten(Of(m)) == m
    ensures Flatten(Map(m, x => Of(x))) == m
  {
  }

  // ---------------------------------------------------------------------
  // lift

  /** `lift` as intended at arity 1 is `map`. */
  lemma Lift1IsMap<T1, R>(f: T1 -> R, m: Maybe<T1>)
    ensures Lift1(f, m) == Map(m, f)
  {
  }

  /** `lift` as intended at arity 2 is a `chain` over the first argument of a `map`
      over the second. */
  lemma Lift2IsChainMap<T1, T2, R>(f: (T1, T2) -> R, m1: Maybe<T1>, m2: Maybe<T2>)
    ensures Lift2(f, m1, m2) == Chain(m1, a => Map(m2, b => f(a, b)))
  {
  }

  /** `lift` as intended at arity 3 is two nested `chain`s around a `map`. */
  lemma Lift3IsChainMap<T1, T2, T3, R>(f: (T1, T2, T3) -> R, m1: Maybe<T1>, m2: Maybe<T2>, m3: Maybe<T3>)
    ensures Lift3(f, m1, m2, m3) == Chain(m1, a => Chain(m2, b => Map(m3, c => f(a, b, c))))
  {
  }

  /** When the arguments share one type, `lift` as intended at arities 1 to 3 yields a
      value exactly when `AllPresent` of its argument list does, and that
      value is `f` applied to the collected payloads in order. */
  lemma {:induction false} LiftIsAllPresent<A, R>(f1: A -> R, f2: (A, A) -> R, f3: (A, A, A) -> R,
                                                  m1: Maybe<A>, m2: Maybe<A>, m3: Maybe<A>)
    ensures Lift1(f1, m1).Just? <==> AllPresent([m1]).Just?
    ensures Lift2(f2, m1, m2).Just? <==> AllPresent([m1, m2]).Just?
    ensures Lift3(f3, m1, m2, m3).Just? <==> AllPresent([m1, m2, m3]).Just?
    ensures AllPresent([m1]).Just? ==> Lift1(f1, m1).val == f1(AllPresent([m1]).val[0])
    ensures AllPresent([m1, m2]).Just? ==>
              var vs := AllPresent([m1, m2]).val; Lift2(f2, m1, m2).val == f2(vs[0], vs[1])
    ensures AllPresent([m1, m2, m3]).Just? ==>
              var vs := AllPresent([m1, m2, m3]).val; Lift3(f3, m1, m2, m3).val == f3(vs[0], vs[1], vs[2])
  {
    var s1, s2, s3 := [m1], [m1, m2], [m1, m2, m3];
    assert s1[0] == m1;
    assert s2[0] == m1 && s2[1] == m2;
    assert s3[0] == m1 && s3[1] == m2 && s3[2] == m3;
  }

  /** The example of arity 2, for `lift` as intended: adding two present
      numbers gives their sum, and an absent first argument gives `Nothing`. */
  lemma LiftAddExample()
    ensures Lift2((x: int, y: int) => x + y, Just(2), Just(3)) == Just(5)
    ensures Lift2((x: int, y: int) => x + y, Nothing, Just(3)) == Nothing
  {
  }

  /** `lift` as written agrees with `lift` as intended exactly when every
      argument is present; on any absent argument it yields the function
      `nothing` and no `Maybe` at all. */
  lemma LiftAsWrittenDiffers<T1, T2, T3, R>(f1: T1 -> R, f2: (T1, T2) -> R, f3: (T1, T2, T3) -> R,
                                            m1: Maybe<T1>, m2: Maybe<T2>, m3: Maybe<T3>)
    ensures Lift1AsWritten(f1, m1) == Value(Lift1(f1, m1)) <==> m1.Just?
    ensures Lift2AsWritten(f2, m1, m2) == Value(Lift2(f2, m1, m2)) <==> m1.Just? && m2.Just?
    ensures Lift3AsWritten(f3, m1, m2, m3) == Value(Lift3(f3, m1, m2, m3)) <==> m1.Just? && m2.Just? && m3.Just?
    ensures m1.Nothing? ==> forall m :: Lift1AsWritten(f1, m1) != Value(m)
    ensures m1.Nothing? || m2.Nothing? ==> forall m :: Lift2AsWritten(f2, m1, m2) != Value(m)
    ensures m1.Nothing? || m2.Nothing? || m3.Nothing? ==> forall m :: Lift3AsWritten(f3, m1, m2, m3) != Value(m)
  {
  }

  /** The example of arity 2 as written: adding an absent number to 3
      yields the function `nothing`, not the value `Nothing`. */
  lemma LiftAddAsWritten()
    ensures Lift2AsWritten((x: int, y: int) => x + y, Just(2), Just(3)) == Value(Just(5))
    ensures Lift2AsWritten((x: int, y: int) => x + y, Nothing, Just(3)) != Value(Nothing)
  {
  }

  // ---------------------------------------------------------------------
  // size and the folds

  /** `size` is 1 exactly for `Just`, and it is the count a fold with `+1`
      arrives at from 0. */
  lemma SizeIsFoldCount<A>(m: Maybe<A>)
    ensures Size(m) == 0 <==> m.Nothing?
    ensures Size(m) == Fold(m, (_, n: int) => n + 1, 0)
  {
  }

  /** `foldMapId` ignores the identity element on `Just`; it agrees with the
      fold that combines `f(val)` into the identity when the identity is a
      right unit of the combining operation on the values `f` yields. */
  lemma FoldMapIdIsFold<A, M>(m: Maybe<A>, id: M, f: A -> M, combine: (M, M) -> M)
    requires forall a :: combine(f(a), id) == f(a)
    ensures FoldMapId(m, id, f) == Fold(m, (a, acc) => combine(f(a), acc), id)
  {
  }

  /** `foldMap` with a monoid constructor is `foldMapId` with that
      constructor's identity element and construction function. */
  lemma FoldMapIsFoldMapId<A, M>(m: Maybe<A>, c: MonoidConstructor<A, M>)
    ensures FoldMap(m, c) == FoldMapId(m, c.identity, c.make)
  {
  }

  /** Folding rebuilds the value: a fold that re-wraps the payload, started
      from `Nothing`, is the identity. */
  lemma FoldRebuilds<A>(m: Maybe<A>)
    ensures Fold(m, (a, _) => Just(a), Nothing) == m
  {
  }
}
