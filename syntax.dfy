/**
 * A small abstract syntax for the part of a Rust trait declaration the
 * generators look at, standing in for `syn`'s `ItemTrait`, `TraitItem`,
 * `ItemImpl` and `ImplItem`. Token-level detail the generators only copy
 * (attributes, generic parameters, supertrait bounds, bodies written by the
 * user) is kept as opaque text so that "copied unchanged" is equality.
 */
module Syntax {
  import opened Wrappers

  type Ident = string
  /** One outer attribute, e.g. `#[doc = "…"]`, as its tokens. */
  type Attr = string
  /** One generic parameter or where-predicate, as its tokens. */
  type GenericParam = string

  datatype Visibility = Inherited | Public | Restricted(path: string)

  /** A parameter pattern: a plain binding `x`, the wildcard `_`, or anything else. */
  datatype Pat = Binding(name: Ident) | Wild | OtherPat(tokens: string)

  datatype Ty =
    | Path(segments: seq<Ident>)           // `i32`, `double_trait::Dummy`, `T`
    | ImplTrait(bounds: seq<string>)       // `impl Future<Output = ()> + Send`
    | SelfAs(traitName: Ident, assoc: Ident) // `<Self as Trait>::Assoc`
    | OtherTy(tokens: string)              // `&str`, `(i32, i32)`, …

  /** `syn::ReturnType`: no `->` at all, or `-> ty`. */
  datatype ReturnType = DefaultOutput | Arrow(ty: Ty)

  /** `syn::FnArg`: `self`, `&self`, `&mut self`, … or `pat: ty`. */
  datatype FnArg = Receiver(tokens: string) | Typed(pat: Pat, ty: Ty)

  datatype Signature = Signature(
    isAsync: bool,
    ident: Ident,
    generics: seq<GenericParam>,
    inputs: seq<FnArg>,
    output: ReturnType)

  /** How a forwarding body names the double trait's method. */
  datatype CallPath =
    | QualifiedSelf(traitName: Ident)      // `<Self as Trait>::name`
    | TraitPath(traitName: Ident)          // `Trait::name`

  /** An argument in a forwarding call: the receiver `self`, or a parameter's own pattern. */
  datatype Arg = SelfArg | PatArg(pat: Pat)

  /** A method body (`syn::Block`). */
  datatype Body =
    | Unimplemented                        // `{ unimplemented!() }`
    | AsyncUnimplemented                   // `{ async { unimplemented!() } }`
    | Forward(callee: CallPath, fnName: Ident, args: seq<Arg>, awaited: bool)
                                           // `{ callee::fnName(a1, …, an,) }` with an optional `.await`
    | Verbatim(tokens: string)             // a body written by the user

  datatype TraitItemFn = TraitItemFn(attrs: seq<Attr>, sig: Signature, default: Option<Body>)

  datatype TraitItemType = TraitItemType(
    attrs: seq<Attr>,
    ident: Ident,
    generics: seq<GenericParam>,
    bounds: seq<string>)

  /** `syn::TraitItem`; constants, macros and verbatim items are all `Other`. */
  datatype TraitItem = Fn(fnItem: TraitItemFn) | Type(tyItem: TraitItemType) | Other(tokens: string)

  datatype ItemTrait = ItemTrait(
    attrs: seq<Attr>,
    vis: Visibility,
    isUnsafe: bool,
    ident: Ident,
    generics: seq<GenericParam>,
    supertraits: seq<string>,
    items: seq<TraitItem>)

  datatype ImplItemFn = ImplItemFn(
    attrs: seq<Attr>,
    vis: Visibility,
    isDefault: bool,
    sig: Signature,
    block: Body)

  datatype ImplItemType = ImplItemType(
    attrs: seq<Attr>,
    vis: Visibility,
    isDefault: bool,
    ident: Ident,
    generics: seq<GenericParam>,
    ty: Ty)

  datatype ImplItem = ImplFn(fnItem: ImplItemFn) | ImplType(tyItem: ImplItemType)

  /** A where-predicate `bounded: traitName`. */
  datatype WherePredicate = Bound(bounded: Ident, traitName: Ident)

  /** `impl<generics> traitName for selfTy where wherePreds { items }` */
  datatype ItemImpl = ItemImpl(
    generics: seq<GenericParam>,
    traitName: Ident,
    selfTy: Ty,
    wherePreds: seq<WherePredicate>,
    items: seq<ImplItem>)

  /** `syn::Error`: a message anchored at a piece of syntax (here always a return type). */
  datatype Error = Error(span: ReturnType, message: string)

  /** The zero-sized marker type `double_trait::Dummy`. */
  const DummyTy: Ty := Path(["double_trait", "Dummy"])

  predicate IsFn(item: TraitItem) { item.Fn? }

  predicate IsType(item: TraitItem) { item.Type? }

  predicate IsFnOrType(item: TraitItem) { item.Fn? || item.Type? }

  /** A method that already has a body in the trait. */
  predicate HasDefault(item: TraitItem) { item.Fn? && item.fnItem.default.Some? }

  /**
   * `impl` provides what `trait` leaves open: a method of the same name for
   * every method without a default, and a binding of the same name and
   * generics for every associated type.
   */
  predicate Provides(impl: ItemImpl, tr: ItemTrait)
  {
    forall i :: 0 <= i < |tr.items| ==>
      match tr.items[i]
      case Fn(f) =>
        f.default.Some? ||
        exists k :: 0 <= k < |impl.items| && impl.items[k].ImplFn? && impl.items[k].fnItem.sig.ident == f.sig.ident
      case Type(t) =>
        exists k :: 0 <= k < |impl.items| && impl.items[k].ImplType?
                    && impl.items[k].tyItem.ident == t.ident && impl.items[k].tyItem.generics == t.generics
      case Other(_) => true
  }
}
