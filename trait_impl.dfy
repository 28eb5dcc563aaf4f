/**
 * The blanket implementation of the `double-derive` crate:
 * `impl<T> Org for T where T: Double { … }`, in which every method forwards
 * to `<Self as Double>::name(args,)` (awaited when the method is `async`) and
 * every associated type `X` is `<Self as Double>::X`.
 */
module TraitImpl {
  import opened Wrappers
  import opened Syntax
  import opened Iter

  /** The parsed template `impl<T> Org for T where T: Double {}`. */
  function BlanketImpl(orgName: Ident, doubleName: Ident): (r: ItemImpl)
    ensures r.generics == ["T"] && r.traitName == orgName && r.selfTy == Path(["T"])
    ensures r.wherePreds == [Bound("T", doubleName)] && r.items == []
  {
    ItemImpl(["T"], orgName, Path(["T"]), [Bound("T", doubleName)], [])
  }

  /** `parameter_to_argument`: the receiver passes `self`, a typed parameter passes its own pattern. */
  function ParameterToArgument(input: FnArg): (a: Arg)
    ensures a == SelfArg <==> input.Receiver?
    ensures input.Typed? ==> a == PatArg(input.pat)
  {
    match input
    case Receiver(_) => SelfArg
    case Typed(pat, _) => PatArg(pat)
  }

  /** `args` passes the parameters `inputs` through one by one, in order, under their own names. */
  predicate PassesThrough(inputs: seq<FnArg>, args: seq<Arg>)
  {
    && |args| == |inputs|
    && forall i :: 0 <= i < |inputs| ==>
         (args[i] == SelfArg <==> inputs[i].Receiver?)
         && (inputs[i].Typed? ==> args[i] == PatArg(inputs[i].pat))
  }

  /** `forward_methods`: the original signature with a body that calls the double trait's method. */
  function ForwardMethods(fnItem: TraitItemFn, doubleName: Ident): (r: ImplItemFn)
    ensures r.attrs == [] && r.vis == Inherited && !r.isDefault
    ensures r.sig == fnItem.sig
    ensures r.block.Forward?
    ensures r.block.callee == QualifiedSelf(doubleName) && r.block.fnName == fnItem.sig.ident
    ensures PassesThrough(fnItem.sig.inputs, r.block.args)
    ensures r.block.awaited <==> fnItem.sig.isAsync
  {
    var args := Map(ParameterToArgument, fnItem.sig.inputs);
    ImplItemFn([], Inherited, false, fnItem.sig,
               Forward(QualifiedSelf(doubleName), fnItem.sig.ident, args, fnItem.sig.isAsync))
  }

  /** `forward_type`: `type X = <Self as Double>::X;` with the original attributes and generics. */
  function ForwardType(tyItem: TraitItemType, doubleName: Ident): (r: ImplItemType)
    ensures r.attrs == tyItem.attrs && r.ident == tyItem.ident && r.generics == tyItem.generics
    ensures r.vis == Inherited && !r.isDefault
    ensures r.ty == SelfAs(doubleName, tyItem.ident)
  {
    ImplItemType(tyItem.attrs, Inherited, false, tyItem.ident, tyItem.generics, SelfAs(doubleName, tyItem.ident))
  }

  /** `forward_items`: methods and associated types are forwarded, everything else is dropped. */
  function ForwardItems(item: TraitItem, doubleName: Ident): (r: Option<ImplItem>)
    ensures r.Some? <==> IsFnOrType(item)
    ensures item.Fn? ==> r == Some(ImplFn(ForwardMethods(item.fnItem, doubleName)))
    ensures item.Type? ==> r == Some(ImplType(ForwardType(item.tyItem, doubleName)))
  {
    match item
    case Fn(f) => Some(ImplFn(ForwardMethods(f, doubleName)))
    case Type(t) => Some(ImplType(ForwardType(t, doubleName)))
    case Other(_) => None
  }

  /** `trait_impl`: the template with the forwarded items in place. */
  function TraitImpl(doubleName: Ident, org: ItemTrait): (r: ItemImpl)
    ensures r.generics == ["T"] && r.traitName == org.ident && r.selfTy == Path(["T"])
    ensures r.wherePreds == [Bound("T", doubleName)]
    ensures forall k :: 0 <= k < |r.items| ==> r.items[k].ImplFn? ==>
      r.items[k].fnItem.block.Forward? && r.items[k].fnItem.block.callee == QualifiedSelf(doubleName)
    ensures forall k :: 0 <= k < |r.items| ==> r.items[k].ImplType? ==>
      r.items[k].tyItem.ty == SelfAs(doubleName, r.items[k].tyItem.ident)
  {
    var items := FilterMap((item: TraitItem) => ForwardItems(item, doubleName), org.items);
    forall k | 0 <= k < |items|
      ensures items[k].ImplFn? ==> items[k].fnItem.block.Forward? && items[k].fnItem.block.callee == QualifiedSelf(doubleName)
      ensures items[k].ImplType? ==> items[k].tyItem.ty == SelfAs(doubleName, items[k].tyItem.ident)
    {
      FilterMapFrom((item: TraitItem) => ForwardItems(item, doubleName), org.items, k);
    }
    BlanketImpl(org.ident, doubleName).(items := items)
  }

  // ---------------------------------------------------------------------------
  // Properties of the blanket implementation

  /** The header depends on nothing but the two trait names. */
  lemma TraitImplHeaderOnlyNames(doubleName: Ident, org: ItemTrait, other: ItemTrait)
    requires org.ident == other.ident
    ensures TraitImpl(doubleName, org).(items := []) == TraitImpl(doubleName, other).(items := [])
    ensures TraitImpl(doubleName, org).(items := []) == BlanketImpl(org.ident, doubleName)
  {
  }

  /** One impl item per method and per associated type of the original. */
  lemma TraitImplItemCount(doubleName: Ident, org: ItemTrait)
    ensures |TraitImpl(doubleName, org).items| == Count(IsFnOrType, org.items)
  {
    FilterMapCount((item: TraitItem) => ForwardItems(item, doubleName), IsFnOrType, org.items);
  }

  /** The impl items follow the original order: the items of a concatenation are the concatenation of the items. */
  lemma TraitImplKeepsOrder(doubleName: Ident, org: ItemTrait, front: seq<TraitItem>, back: seq<TraitItem>)
    ensures TraitImpl(doubleName, org.(items := front + back)).items ==
            TraitImpl(doubleName, org.(items := front)).items + TraitImpl(doubleName, org.(items := back)).items
  {
    FilterMapAppend((item: TraitItem) => ForwardItems(item, doubleName), front, back);
  }

  /** Every method and every associated type of the original is forwarded. */
  lemma TraitImplForwardsEveryItem(doubleName: Ident, org: ItemTrait, i: nat)
    requires i < |org.items| && IsFnOrType(org.items[i])
    ensures var items := TraitImpl(doubleName, org).items;
      exists k :: 0 <= k < |items| && Some(items[k]) == ForwardItems(org.items[i], doubleName)
  {
    FilterMapContains((item: TraitItem) => ForwardItems(item, doubleName), org.items, i);
  }

  /** Every impl item is the forwarding of some method or associated type of the original. */
  lemma TraitImplOnlyForwards(doubleName: Ident, org: ItemTrait, k: nat)
    requires k < |TraitImpl(doubleName, org).items|
    ensures exists i :: 0 <= i < |org.items| && IsFnOrType(org.items[i])
                        && Some(TraitImpl(doubleName, org).items[k]) == ForwardItems(org.items[i], doubleName)
  {
    FilterMapFrom((item: TraitItem) => ForwardItems(item, doubleName), org.items, k);
  }

  /** The blanket impl provides every method and associated type the original trait leaves open. */
  lemma TraitImplProvidesOriginal(doubleName: Ident, org: ItemTrait)
    ensures Provides(TraitImpl(doubleName, org), org)
  {
    var impl := TraitImpl(doubleName, org);
    forall i | 0 <= i < |org.items| && IsFnOrType(org.items[i])
      ensures exists k :: 0 <= k < |impl.items| && Some(impl.items[k]) == ForwardItems(org.items[i], doubleName)
    {
      TraitImplForwardsEveryItem(doubleName, org, i);
    }
  }
}
