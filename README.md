# double-trait, modelled in Dafny

`double-trait` is a Rust procedural macro. `#[double(OrgDouble)]` on a trait
`Org` emits four declarations, in this order:

- the trait `Org`, unchanged;
- a *double trait* `OrgDouble`. It mirrors `Org`, and every method that lacks
  a body gets `unimplemented!()`, or `async { unimplemented!() }` when the
  method returns `impl …`;
- the *blanket impl* `impl<T> Org for T where T: OrgDouble`. Each method
  forwards to `<Self as OrgDouble>::name(args,)`, with `.await` when it is
  `async`. Each associated type `X` is `<Self as OrgDouble>::X`;
- the *Dummy impl* `impl OrgDouble for double_trait::Dummy`. It binds every
  associated type to `double_trait::Dummy`.

This project models the four generators of the `double-derive` crate as pure
functions over a small abstract syntax (`syntax.dfy`) instead of `syn` syntax
trees and `quote` token streams. It also models the earlier generators at the
repository root (`src/double_trait.rs`, `src/trait_impl.rs`), which
`src/lib.rs` does not declare as modules. Lemmas state and prove what each
generator promises.

Files:

- `wrappers.dfy`: `Option` and `Result`.
- `iter.dfy`: the iterator pipelines the source uses, with induction lemmas.
  It covers `map`, `filter_map`, `collect` into a `Result` (the first `Err`
  wins), and `filter_map` over `transpose`.
- `syntax.dfy`: trait and impl items, signatures, parameters, return types
  and bodies.
- `double_trait.dfy`, `trait_impl.dfy`, `dummy_impl.dfy`, `double.dfy`: the
  live crate.
- `legacy_double_trait.dfy`, `legacy_trait_impl.dfy`: the earlier variant.

Notes on the model:

- Syntax is modelled only as deeply as the generators look at it. Bodies the
  user wrote are `Verbatim(tokens)`. Attributes, generic parameters and
  supertraits are opaque text. So "copied unchanged" is plain equality.
- The return-type test is one boolean: does the method return `-> impl …`,
  with any bounds? That is `DoubleTrait.IsMaybeImplFuture`. `impl Iterator`
  therefore gets the async body like `impl Future`. The code has no finer
  classification, so the model has none either. There is no Future-of-Iterator
  case, no empty body for unit-returning methods, and no embedded diagnostic
  for unknown bounds. Unit-returning methods also get `unimplemented!()`.
  The doc comment at `double-derive/src/lib.rs:21` says methods returning
  `impl` Traits other than `impl Future` are not supported. The code does not
  enforce this. Its diagnostic (`double-derive/src/double_trait.rs:52-56`)
  fires only if the fixed async template fails to parse, and
  `DoubleTrait.DoubleTraitTotal` shows it never does. This is not listed
  under "Findings", because the code has no notion of which bounds to reject.
- The body `async { unimplemented!() }` comes from handing a fixed token
  template to `syn::parse2`. The generator's only error path is the failure of
  that parse. The model takes the parse outcome as the parameter
  `asyncBlockParses`. `DoubleTrait.DoubleTraitTotal` shows that nothing fails
  when the template parses, as it always does with `syn`. The other parsed
  templates are unwrapped in the source. The fixed ones are modelled as
  constants. The forwarding bodies are modelled as always parsing (see
  "Left out").
- The blanket impl has no visibility. It is built from a template that
  depends only on the two trait names, so the original trait's visibility,
  attributes and generics do not reach it (`TraitImpl.TraitImplHeaderOnlyNames`,
  `Double.ExpandVisibility`). Only the double trait carries the original's
  visibility.
- Both variants share the same return-type test and parameter-to-argument
  rule: `src/double_trait.rs:60-71` is the same code as
  `double-derive/src/double_trait.rs:80-91`, and `src/trait_impl.rs:55-62`
  is the same code as `double-derive/src/trait_impl.rs:86-93`. The earlier
  modules therefore reuse the live definitions and the same blanket template.

## Model

| member | source | states |
|---|---|---|
| `DoubleTrait.IsMaybeImplFuture` | double-derive/src/double_trait.rs:80-91 | True exactly for a return type `-> impl …`, whatever its bounds are. False with no return type and for every other type. |
| `DoubleTrait.SynthesizedBody` | double-derive/src/double_trait.rs:44-61 | The synthesized body is `async { unimplemented!() }` exactly when the method returns `impl …`. Otherwise it is `unimplemented!()`. |
| `DoubleTrait.StrippedInputs` | double-derive/src/double_trait.rs:68-78 | Same length as the input list. Receivers are unchanged. Each typed parameter keeps its type, and its pattern becomes `_`. |
| `DoubleTrait.StripParameterNames` | double-derive/src/double_trait.rs:68-78 | The in-place loop over the parameter array leaves exactly `StrippedInputs` of the old contents. |
| `DoubleTrait.TransformFunction` | double-derive/src/double_trait.rs:35-66 | A method with a body is returned unchanged. Without a body it keeps attrs, name, asyncness, generics and return type, has its patterns erased, and gets the synthesized body. It fails exactly when it needs the async template and the template does not parse, with the fixed message anchored at the return type. |
| `DoubleTrait.TransformTraitItem` | double-derive/src/double_trait.rs:22-32 | Non-method items pass through unchanged. Methods go through `TransformFunction`. It fails exactly when the method fails. |
| `DoubleTrait.DoubleTrait` | double-derive/src/double_trait.rs:9-20 | On success the ident is the double name. Attrs, visibility, unsafety, generics and supertraits are copied, and the item count equals the original's. |
| `DoubleTrait.DoubleTraitMapsItems` | double-derive/src/double_trait.rs:10-14 | Item i of the double trait is the transformation of original item i. The items map one to one and in order. |
| `DoubleTrait.DoubleTraitItemRules` | double-derive/src/double_trait.rs:22-66 | Non-method items and methods with a body come out unchanged. Any other method keeps its signature except for erased patterns (receivers are kept, types and count too) and gets the synthesized body. |
| `DoubleTrait.DoubleTraitEveryMethodHasDefault` | double-derive/src/double_trait.rs:35-65 | Every method of the double trait has a body. |
| `DoubleTrait.DoubleTraitFailsIff` | double-derive/src/double_trait.rs:44-56 | The generator fails if and only if the template does not parse and some method without a body returns `impl …`. |
| `DoubleTrait.DoubleTraitFirstError` | double-derive/src/double_trait.rs:10-14 | The error is the one of the first such method: its return type and the fixed message. No earlier item fails. |
| `DoubleTrait.DoubleTraitTotal` | double-derive/src/double_trait.rs:52-56 | If the fixed async template parses, the generator always succeeds. |
| `DoubleTrait.DoubleTraitIdempotent` | double-derive/src/double_trait.rs:36-38 | Applied to its own output, under any name and parse outcome, the generator succeeds and changes only the name. |
| `TraitImpl.BlanketImpl` | double-derive/src/trait_impl.rs:14-21 | The template is `impl<T> Org for T where T: Double` with no items. |
| `TraitImpl.ParameterToArgument` | double-derive/src/trait_impl.rs:86-93 | A receiver becomes `self`. A typed parameter becomes its own, unstripped pattern. |
| `TraitImpl.ForwardMethods` | double-derive/src/trait_impl.rs:61-84 | Keeps the original signature verbatim, with no attrs, inherited visibility and no defaultness. The body calls `<Self as Double>::name` with every parameter passed through in order, and is awaited iff the signature is async. |
| `TraitImpl.ForwardType` | double-derive/src/trait_impl.rs:42-58 | `type X = <Self as Double>::X;` with the ident, generics and attrs preserved, inherited visibility and no defaultness. |
| `TraitImpl.ForwardItems` | double-derive/src/trait_impl.rs:26-39 | A method becomes a forwarding fn and an associated type becomes an alias. Every other item gives nothing. |
| `TraitImpl.TraitImpl` | double-derive/src/trait_impl.rs:7-24 | The header is `impl<T> Org for T where T: Double`. Every item is a forwarding fn qualified with `<Self as Double>` or an alias to `<Self as Double>::X`. |
| `TraitImpl.TraitImplHeaderOnlyNames` | double-derive/src/trait_impl.rs:14-23 | Apart from the items, the impl depends only on the two trait names and equals the template. |
| `TraitImpl.TraitImplItemCount` | double-derive/src/trait_impl.rs:8-12 | There are as many impl items as the original has methods and associated types. |
| `TraitImpl.TraitImplKeepsOrder` | double-derive/src/trait_impl.rs:8-12 | The impl items of a concatenation are the concatenation of the impl items, so the original order is kept. |
| `TraitImpl.TraitImplForwardsEveryItem` | double-derive/src/trait_impl.rs:26-39 | Every method and every associated type of the original has its forwarding item in the impl. |
| `TraitImpl.TraitImplOnlyForwards` | double-derive/src/trait_impl.rs:26-39 | Every impl item is the forwarding of some method or associated type of the original. |
| `TraitImpl.TraitImplProvidesOriginal` | double-derive/src/trait_impl.rs:7-39 | The blanket impl provides, by name, every method and every associated type of the original trait. |
| `DummyImpl.TransformTraitItem` | double-derive/src/dummy_impl.rs:19-37 | Gives something exactly for an associated type: `type X = double_trait::Dummy;` with ident, generics and attrs preserved, inherited visibility and no defaultness. |
| `DummyImpl.DummyImpl` | double-derive/src/dummy_impl.rs:8-15 | The header is `impl Double for double_trait::Dummy`. Every item binds an associated type to `double_trait::Dummy`. |
| `DummyImpl.DummyImplItemCount` | double-derive/src/dummy_impl.rs:9 | There is exactly one impl item per associated type of the original. |
| `DummyImpl.DummyImplKeepsOrder` | double-derive/src/dummy_impl.rs:9 | The bindings follow the relative order of the associated types. |
| `DummyImpl.DummyImplEmptyWithoutTypes` | double-derive/src/dummy_impl.rs:9-14 | A trait without associated types gives an empty impl body. |
| `DummyImpl.DummyImplBindsEveryType` | double-derive/src/dummy_impl.rs:19-33 | Every associated type of the original is bound. |
| `DummyImpl.DummyImplOnlyTypes` | double-derive/src/dummy_impl.rs:19-37 | Every binding is exactly the binding of some associated type of the original: same attributes, name and generics, bound to `Dummy`. |
| `Double.Expand` | double-derive/src/double.rs:13-37 | Fails iff the double trait generator fails, with its error unchanged. On success it gives exactly four fragments: original trait, double trait, blanket impl, Dummy impl. All three generators get the same unmodified original. |
| `Double.ExpandVisibility` | double-derive/src/double.rs:64-83 | The double trait has the new name and the original's visibility. Changing the original's visibility leaves both impls unchanged. |
| `Double.ExpandEmptyTrait` | double-derive/src/double.rs:46-62 | An empty trait gives an empty double trait, an empty blanket impl and an empty Dummy impl. |
| `Double.ExpandProvidesEverything` | double-derive/src/double.rs:17-35 | Every method of the double trait has a body. The Dummy impl provides each of its associated types. The blanket impl is for the original trait, bounded by the double trait, and provides all of the original's methods and associated types. |
| `Double.ExpandForwardsToExistingMethods` | double-derive/src/trait_impl.rs:61-84 | Every forwarding fn of the blanket impl calls `<Self as Double>::name`, and the double trait has a method of that name. This includes methods with a body. |
| `LegacyDoubleTrait.TransformFunction` | src/double_trait.rs:31-58 | A method with a body gives `None`. Otherwise the method keeps its signature, parameter names included, and gets the synthesized body. It fails exactly as in the live generator. |
| `LegacyDoubleTrait.TransformTraitItem` | src/double_trait.rs:19-28 | Non-method items are kept unchanged and methods with a body are dropped. Other methods go through `TransformFunction`. |
| `LegacyDoubleTrait.DoubleTrait` | src/double_trait.rs:6-17 | On success the ident is the double name and the other trait fields are copied. The item count is at most the original's. |
| `LegacyDoubleTrait.DoubleTraitItems` | src/double_trait.rs:7-11 | On success the items are exactly the `filter_map` of the transformation over the original items. |
| `LegacyDoubleTrait.DoubleTraitDropsDefaults` | src/double_trait.rs:31-34 | The item count is the number of original items that are not methods with a body. |
| `LegacyDoubleTrait.DoubleTraitKeepsOrder` | src/double_trait.rs:7-11 | Whatever the parse outcome: if the generator succeeds on a concatenation, it succeeds on both halves, and its result is the concatenation of theirs. So kept items keep their order. |
| `LegacyDoubleTrait.DoubleTraitKeepsItem` | src/double_trait.rs:19-57 | Every non-method item appears unchanged. Every method without a body appears with its signature verbatim and the synthesized body. |
| `LegacyDoubleTrait.DoubleTraitOnlySurvivors` | src/double_trait.rs:7-11 | Every item of the result comes from an original item that is not a method with a body. |
| `LegacyDoubleTrait.DoubleTraitFailsIff` | src/double_trait.rs:36-48 | Fails iff the template does not parse and some method without a body returns `impl …`. |
| `LegacyDoubleTrait.DoubleTraitFirstError` | src/double_trait.rs:10-11 | The error is the one of the first such method. |
| `LegacyTraitImpl.FunctionWithForwarding` | src/trait_impl.rs:38-53 | Keeps the original signature verbatim with no attrs and inherited visibility. The body calls `Double::name` with the parameters passed through in order, never awaited, even for an async method. |
| `LegacyTraitImpl.MapMethods` | src/trait_impl.rs:27-35 | Only methods give an impl item. Associated types and other items are dropped. |
| `LegacyTraitImpl.TraitImpl` | src/trait_impl.rs:8-25 | The header is `impl<T> Org for T where T: Double`. Every item is a forwarding fn through `Double::` with no `.await`. |
| `LegacyTraitImpl.TraitImplItemCount` | src/trait_impl.rs:9-13 | There is exactly one impl item per original method. |
| `LegacyTraitImpl.TraitImplKeepsOrder` | src/trait_impl.rs:9-13 | The forwarding methods follow the order of the original methods. |
| `LegacyTraitImpl.TraitImplForwardsEveryMethod` | src/trait_impl.rs:27-35 | Every original method has its forwarding fn in the impl. |
| `LegacyTraitImpl.DiffersFromLive` | src/trait_impl.rs:46-51 | The earlier forwarding fn is the live one with the call path `Double::` and without `.await`. Associated types are dropped here but forwarded by the live impl. |
| `LegacyTraitImpl.ForwardsDroppedMethod` | src/trait_impl.rs:27-35 | Take a method with a body whose name no other method shares. The earlier impl forwards it as `Double::name`, yet the earlier double trait has no method of that name. |

## Left out

- Token plumbing (`quote!`, spans, `to_string`) is left out. Syntax is abstract values, and the fixed templates are constants.
- The `syn::parse2` call on the async template is a foreign call. The model takes its outcome as the parameter `asyncBlockParses` rather than modelling `syn`'s parser.
- Four `unwrap()`s parse a fixed, well-formed template and are modelled as always succeeding: `double-derive/src/double_trait.rs:60`, `double-derive/src/trait_impl.rs:21`, `src/double_trait.rs:52` and `src/trait_impl.rs:22`.
- `TraitImpl.ForwardMethods`, `LegacyTraitImpl.FunctionWithForwarding`: the forwarding bodies (`double-derive/src/trait_impl.rs:80-82`, `src/trait_impl.rs:51`) splice each parameter's pattern into a call argument. The source then `unwrap()`s the parse. A pattern that is not an expression (`mut x`, `ref x`, `x @ p`) makes that parse fail, and the macro panics. Such methods are legal when they have a body, and both impls forward them too. The model always produces the forwarding body, with the pattern as the argument, and does not capture this panic. `Pat` does not tell expression patterns from the others.
- The proc-macro entry points are left out: `double` and `dummies` in `double-derive/src/lib.rs`, and `double` and `Attr::parse` in `src/lib.rs`. They only parse input and turn errors into `compile_error!`.
- `double_impl` in `src/lib.rs` ignores its input and emits an empty public trait, so it has nothing to prove.
- `expand` in `double-derive/src/dummies.rs` is an identity stub.
- The runtime behaviour of the generated code is left out: the panic of `unimplemented!()`, awaiting, and the interaction with `async_trait`. The transformation executes none of it.
- `impl Iterator` handling is mentioned in a doc comment and a commented-out test, but no code implements it. It is not modelled.
- Some tests expect behaviour the code does not produce, and those expectations are not modelled. `double-derive/src/double.rs:107` and `:175` expect `{}` bodies. `double-trait/tests/integration.rs:163` expects a panic message naming the method. The code emits a plain `unimplemented!()`.
- Determinism (two runs give identical output) needs no lemma: every generator is a Dafny function.
- Whether the generated Rust compiles is not modelled. `Double.ExpandProvidesEverything` states only the syntactic side: every required method and associated type is present by name.

## Findings

| source | as written | input that shows it | evidently intended | confidence | as-written member | corrected member |
|---|---|---|---|---|---|---|
| src/double_trait.rs:31-34, src/trait_impl.rs:27-35 | The earlier double trait drops every method that has a body, but the earlier impl still forwards every method as `Double::name(args,)`. | `trait Org { fn f(&self) -> u32 { 0 } }`: the double trait has no `f`, yet the impl calls `Double::f(self,)`. | Every method the impl forwards to exists in the double trait. The live crate does this by keeping methods with a body. | not executed; high | `LegacyTraitImpl.ForwardsDroppedMethod` | `Double.ExpandForwardsToExistingMethods` |
