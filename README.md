# Maybe: the optional-value container of jabz, in Dafny

This project models `src/maybe.ts`, the optional-value container of the jabz
library. A `Maybe<A>` is either `Nothing` or `Just(val)`. All of its operations
are total and pure, so each one is a Dafny function with one case per variant,
following the two TypeScript subclasses `Nothing` and `Just`:

- `of`, `match`, `map`, `mapTo`, `chain` and `flatten`;
- `lift` at arities 1 to 3;
- `fold`, `foldMap` and `foldMapId`;
- `size` and `traverse`.

The exported constructors `just(v)` and `nothing()` are the datatype
constructors `Just(v)` and `Nothing`.

Files:

- `maybe.dfy`, module `Maybes`: the datatype and one function per operation.
  Each contract states what the operation yields for each variant.
- `maybe_laws.dfy`, module `MaybeLaws`: the functor and monad laws, and the
  relations between `chain`, `map`, `flatten`, `lift`, the folds and `size`.
- `maybe_traverse.dfy`, module `MaybeTraverse`: `traverse` at two concrete
  applicatives, the identity applicative `Box` and `Maybe` itself.

Modelling decisions:

- `flatten` ignores its receiver in both subclasses, so `Flatten` takes only
  the nested value. Its result therefore cannot depend on the receiver.
- `fold` follows the two implementations, not the abstract declaration. The
  declaration lists `(acc, f)`, but both subclasses take `(f, acc)` and call
  `f(val, acc)`. `Fold(m, f, acc)` does the same.
- `foldMapId` on `Just` returns `f(val)` and does not combine it with the
  identity element. `FoldMapIdIsFold` shows when this agrees with a fold
  that does combine.
- `foldMap` receives a monoid constructor. The constructor is stood in for by
  the datatype `MonoidConstructor(identity, make)`, which gives its identity
  element and its construction function.
- `traverse` needs an applicative. Dafny has no higher-kinded types, so
  `Traverse` takes the applicative's `of` and `map` as function parameters.
  The applicative over `B` and the applicative over `Maybe<B>` are separate
  type parameters. `MaybeTraverse` instantiates it at `Box` and at `Maybe`.
- `lift` picks its arm from the arity of `f`, 1 to 3, and tests exactly the
  first that many arguments for presence. The overloads declare exactly
  that many arguments, so `Lift1`, `Lift2` and `Lift3` take exactly that
  many. `AllPresent` states the presence test for a list of arguments of
  one type. `LiftIsAllPresent` ties the three lifts to it for lists of
  length 1 to 3, which are the only lengths at which `lift` has an arm.
- On an absent argument, `lift` as written returns the function `nothing`
  rather than the value `nothing()` (see "## Findings"). `Lift1AsWritten`,
  `Lift2AsWritten` and `Lift3AsWritten` model that code. `Lift1`, `Lift2`
  and `Lift3` are the corrected definitions, and every law about `lift`
  below is about them.
- `size` returns a JavaScript number, modelled as `int`.

## Model

| member | source | states |
|---|---|---|
| `Maybes.Of` | src/maybe.ts:47-49 | `of(v)` always yields `Just` holding `v` |
| `Maybes.Match` | src/maybe.ts:55-57 | `Nothing` runs the `nothing` branch; `Just(v)` runs the `just` branch on `v` (also src/maybe.ts:96-98) |
| `Maybes.Map` | src/maybe.ts:67-69 | the result is `Just` exactly when the input is, and then holds `f(val)` (also src/maybe.ts:108-110) |
| `Maybes.MapTo` | src/maybe.ts:70-72 | the result is `Just` exactly when the input is, and then holds `b` (also src/maybe.ts:111-113) |
| `Maybes.Chain` | src/maybe.ts:58-60 | `Nothing` short-circuits to `Nothing`; `Just(v)` yields `f(v)` (also src/maybe.ts:99-101) |
| `Maybes.Flatten` | src/maybe.ts:61-66 | the result is `Just` exactly when both layers are, and then holds the inner payload (also src/maybe.ts:102-107) |
| `Maybes.Lift1AsWritten` | src/maybe.ts:23-24 | as written: `Just(f(v))` when the argument is present, the function `nothing` exactly when it is absent |
| `Maybes.Lift2AsWritten` | src/maybe.ts:25-30 | as written: `Just(f(v1, v2))` when both arguments are present, the function `nothing` exactly when one is absent |
| `Maybes.Lift3AsWritten` | src/maybe.ts:31-38 | as written: `Just(f(v1, v2, v3))` when all arguments are present, the function `nothing` exactly when one is absent |
| `Maybes.Lift1` | src/maybe.ts:23-24 | corrected: `Just(f(v))` exactly when the argument is present, the value `Nothing` otherwise |
| `Maybes.Lift2` | src/maybe.ts:25-30 | corrected: `Just(f(v1, v2))` exactly when both arguments are present, `Nothing` otherwise |
| `Maybes.Lift3` | src/maybe.ts:31-38 | corrected: `Just(f(v1, v2, v3))` exactly when all three arguments are present, `Nothing` otherwise |
| `Maybes.AllPresent` | src/maybe.ts:21-39 | reference for the presence test of the corrected `lift`: a list of arguments yields its payloads, in order and of the same length, exactly when every argument is present (related to `lift` only at lengths 1 to 3) |
| `Maybes.Fold` | src/maybe.ts:79-81 | `acc` for `Nothing`; `f(val, acc)` for `Just` (also src/maybe.ts:120-122) |
| `Maybes.FoldMapId` | src/maybe.ts:73-75 | the identity element for `Nothing`; `f(val)`, not combined with the identity, for `Just` (also src/maybe.ts:114-116) |
| `Maybes.FoldMap` | src/maybe.ts:76-78 | the monoid identity for `Nothing`; the constructed element `f(val)` for `Just` (also src/maybe.ts:117-119) |
| `Maybes.Size` | src/maybe.ts:82-84 | `0 <= size <= 1`, and `size == 1` exactly for `Just` (also src/maybe.ts:123-125) |
| `Maybes.Traverse` | src/maybe.ts:85-87 | `Nothing` yields `of(Nothing)`; `Just(v)` yields `f(v)` mapped by `just` (also src/maybe.ts:126-128) |
| `MaybeLaws.MatchIsEliminator` | src/maybe.ts:96-98 | `match` with the two constructors is the identity, and `map` is `match` that re-wraps `f(v)` |
| `MaybeLaws.NothingIgnoresFunction` | src/maybe.ts:51-87 | on `Nothing`, `map`, `chain`, `fold`, `foldMapId` and `traverse` yield the same result whatever function they are given |
| `MaybeLaws.MapIdentity` | src/maybe.ts:108-110 | functor identity law: `map(x => x)` is the identity |
| `MaybeLaws.MapComposition` | src/maybe.ts:108-110 | functor composition law: `map(f).map(g) == map(g ∘ f)` |
| `MaybeLaws.MapToIsMapConst` | src/maybe.ts:111-113 | `mapTo(b) == map(_ => b)` |
| `MaybeLaws.ChainLeftIdentity` | src/maybe.ts:47-49 | monad left identity: `of(x).chain(f) == f(x)` |
| `MaybeLaws.ChainRightIdentity` | src/maybe.ts:99-101 | monad right identity: `m.chain(of) == m` |
| `MaybeLaws.ChainAssociative` | src/maybe.ts:99-101 | monad associativity: `m.chain(f).chain(g) == m.chain(x => f(x).chain(g))` |
| `MaybeLaws.MapFromChain` | src/maybe.ts:108-110 | `map(f) == chain(x => of(f(x)))` |
| `MaybeLaws.FlattenCases` | src/maybe.ts:102-107 | `flatten(Nothing) == Nothing`, `flatten(Just(Nothing)) == Nothing`, `flatten(Just(Just(x))) == Just(x)` |
| `MaybeLaws.FlattenChain` | src/maybe.ts:61-66 | `flatten == chain(x => x)`, and `chain(f) == flatten(map(f))` |
| `MaybeLaws.FlattenUnits` | src/maybe.ts:102-107 | `flatten(of(m)) == m` and `flatten(map(of)(m)) == m` |
| `MaybeLaws.Lift1IsMap` | src/maybe.ts:23-24 | the corrected `lift` at arity 1 equals `map` |
| `MaybeLaws.Lift2IsChainMap` | src/maybe.ts:25-30 | corrected `lift(f, m1, m2) == m1.chain(a => m2.map(b => f(a, b)))` |
| `MaybeLaws.Lift3IsChainMap` | src/maybe.ts:31-38 | the corrected `lift(f, m1, m2, m3)` equals two nested `chain`s around a `map` |
| `MaybeLaws.LiftIsAllPresent` | src/maybe.ts:21-39 | at arities 1 to 3, the corrected `lift` is present exactly when all its arguments are, and then applies `f` to their payloads in order |
| `MaybeLaws.LiftAsWrittenDiffers` | src/maybe.ts:21-39 | `lift` as written equals the corrected `lift` exactly when every argument is present; otherwise it yields no `Maybe` at all |
| `MaybeLaws.LiftAddAsWritten` | src/maybe.ts:25-30 | as written, `lift(add, Just(2), Just(3))` is `Just(5)` but `lift(add, Nothing, Just(3))` is not the value `Nothing` |
| `MaybeLaws.LiftAddExample` | src/maybe.ts:25-30 | corrected: `lift(add, Just(2), Just(3)) == Just(5)` and `lift(add, Nothing, Just(3)) == Nothing` |
| `MaybeLaws.SizeIsFoldCount` | src/maybe.ts:123-125 | `size == 0` exactly for `Nothing`, and `size` is the count a fold with `+1` reaches from 0 |
| `MaybeLaws.FoldMapIdIsFold` | src/maybe.ts:114-116 | `foldMapId(id, f)` equals the fold that combines `f(val)` into `id`, whenever `id` is a right unit of the combination |
| `MaybeLaws.FoldMapIsFoldMapId` | src/maybe.ts:117-119 | `foldMap(c)` equals `foldMapId(c.identity(), c)` |
| `MaybeLaws.FoldRebuilds` | src/maybe.ts:120-122 | the fold that re-wraps the payload, started from `Nothing`, rebuilds the value |
| `MaybeTraverse.TraverseBoxIsMap` | src/maybe.ts:126-128 | in the identity applicative, `traverse` with a boxed function is the boxed `map`, and `traverse(Box)` is `Box` |
| `MaybeTraverse.TraverseInMaybe` | src/maybe.ts:85-87 | in the `Maybe` applicative: `Nothing` gives `Just(Nothing)` only; `Just(v)` gives `Nothing` exactly when `f(v)` is `Nothing`, else `Just(Just(w))` |
| `MaybeTraverse.TraversePureIsOfMap` | src/maybe.ts:126-128 | `traverse(x => of(g(x)))` in the `Maybe` applicative is `of(map(g))` |
| `MaybeTraverse.Sequence` | src/maybe.ts:126-128 | `traverse` with the identity swaps the layers: `Nothing` to `Just(Nothing)`, `Just(Nothing)` to `Nothing`, `Just(Just(x))` unchanged |
| `MaybeTraverse.SequenceLaws` | src/maybe.ts:126-128 | swapping the layers twice is the identity, and swapping does not change what `flatten` yields |

## Left out

- `src/io.ts`, the deferred-effect container, is not part of this model. It wraps JavaScript Promises, and its behaviour comes from the Promise runtime.
- The presence test `.val !== undefined` inside `lift` is modelled as the variant test. A `Just(undefined)`, which the source treats as absent, cannot be expressed.
- The dispatch of `lift` on `f.length` is modelled as three separate functions per version of `lift`. Other arities, for which the source falls out of its `switch` and returns `undefined`, are not modelled.
- `Maybes.AllPresent` also accepts lists of length 0 and of 4 or more, and yields a value for them. `lift` has no arm for those arities, so the model relates the two only at lengths 1 to 3.
- Callbacks are total Dafny functions. A callback that throws, which `map`, `chain`, `fold` and `traverse` on `Just` would pass on, is not modelled, and neither are a callback's side effects. "`f` is never called on `Nothing`" is therefore stated as "the result on `Nothing` does not depend on `f`" (`NothingIgnoresFunction`).
- The singleton `_nothing` and `Nothing.chain` returning `this` rely on reference identity. The model uses structural equality of datatype values.
- The `Monoid`, `MonoidConstructor`, `Applicative`, `ApplicativeDictionary`, `Traversable` and `Monad` interfaces are defined in files outside this model. They are replaced by explicit parameters: an identity element, a construction function, and `of` and `map`.
- The laws of an arbitrary applicative are not assumed, since `Traverse` takes its `of` and `map` as arbitrary parameters. Laws that need them are proved only at the `Box` and `Maybe` instances.
- The type-level mismatches of the TypeScript declarations are not modelled. These are the `(acc, f)` order of the abstract `fold` declaration and the `Maybe<A>` result type of `Nothing.chain`. The model follows what the implementations compute.

## Findings

| source | as written | input that shows it | evidently intended | confidence | as-written member | corrected member |
|---|---|---|---|---|---|---|
| src/maybe.ts:24 | the absent arm returns `nothing`, the exported function, not `nothing()` | `lift(x => x, nothing())` | the value `Nothing`, as the declared `Maybe<R>` result type (line 18) and `flatten`'s `nothing()` (line 63) indicate | high; not executed | `MaybeLaws.LiftAsWrittenDiffers` | `Maybes.Lift1` |
| src/maybe.ts:29 | the absent arm returns the function `nothing` | `lift((x, y) => x + y, nothing(), just(3))` | the value `Nothing` (line 19) | high; not executed | `MaybeLaws.LiftAddAsWritten` | `Maybes.Lift2` |
| src/maybe.ts:37 | the absent arm returns the function `nothing` | `lift((x, y, z) => x, just(1), just(2), nothing())` | the value `Nothing` (line 20) | high; not executed | `MaybeLaws.LiftAsWrittenDiffers` | `Maybes.Lift3` |
