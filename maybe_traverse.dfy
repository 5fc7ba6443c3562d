/** `traverse` of src/maybe.ts at two concrete applicatives: the identity
    applicative `Box`, and `Maybe` itself (with `of` and `map` of the
    container as the applicative's operations). */
module MaybeTraverse {
  import opened Maybes

  /** The identity applicative: a box around exactly one value. */
  datatype Box<T> = Box(get: T)

  /** `of` of the identity applicative. */
  function BoxOf<T>(v: T): (r: Box<T>)
    ensures r.get == v
  {
    Box(v)
  }

  /** `map` of the identity applicative. */
  function BoxMap<T, U>(b: Box<T>, f: T -> U): (r: Box<U>)
    ensures r.get == f(b.get)
  {
    Box(f(b.get))
  }

  /** Traversing with a function into the identity applicative is `map`
      of the unboxed function, boxed; boxing each payload gives the
      traversed value back, boxed. */
  lemma TraverseBoxIsMap<A, B>(m: Maybe<A>, g: A -> B)
    ensures Traverse(m, BoxOf, BoxMap, a => Box(g(a))) == Box(Map(m, g))
    ensures Traverse(m, BoxOf, BoxMap, a => Box(a)) == Box(m)
  {
  }

  /** `traverse` into the `Maybe` applicative, by case: `Nothing` becomes
      `Just(Nothing)` without calling `f`; `Just(v)` becomes `Nothing` when
      `f(v)` is `Nothing` and `Just(Just(w))` when `f(v)` is `Just(w)`. */
  lemma TraverseInMaybe<A, B>(m: Maybe<A>, f: A -> Maybe<B>)
    ensures Traverse(m, Of, Map, f) == Just(Nothing) <==> m.Nothing?
    ensures Traverse(m, Of, Map, f) == Nothing <==> m.Just? && f(m.val).Nothing?
    ensures m.Just? && f(m.val).Just? ==> Traverse(m, Of, Map, f) == Just(Just(f(m.val).val))
  {
  }

  /** Traversing with a function that only wraps its result with `of` is
      `of` of `map`. */
  lemma TraversePureIsOfMap<A, B>(m: Maybe<A>, g: A -> B)
    ensures Traverse(m, Of, Map, a => Of(g(a))) == Of(Map(m, g))
  {
  }

  /** `sequence`: `traverse` with the identity function, which swaps the two
      `Maybe` layers of a nested value. */
  function Sequence<B>(mm: Maybe<Maybe<B>>): (r: Maybe<Maybe<B>>)
    ensures mm.Nothing? ==> r == Just(Nothing)
    ensures mm == Just(Nothing) ==> r == Nothing
    ensures mm.Just? && mm.val.Just? ==> r == mm
  {
    Traverse(mm, Of, Map, x => x)
  }

  /** Swapping the layers twice gives the original value back, and
      swapping before flattening does not change what `flatten` yields. */
  lemma SequenceLaws<B>(mm: Maybe<Maybe<B>>)
    ensures Sequence(Sequence(mm)) == mm
    ensures Flatten(Sequence(mm)) == Flatten(mm)
  {
  }
}
