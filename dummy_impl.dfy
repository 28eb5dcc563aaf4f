/**
 * The placeholder implementation of the `double-derive` crate:
 * `impl Double for double_trait::Dummy { … }`, binding every associated type
 * to `double_trait::Dummy`. Methods need nothing here, since the double
 * trait gives each one a body.
 */
module DummyImpl {
  import opened Wrappers
  import opened Syntax
  import opened Iter

  /** `transform_trait_item`: an associated type `X` becomes `type X = double_trait::Dummy;`, anything else nothing. */
  function TransformTraitItem(item: TraitItem): (r: Option<ImplItem>)
    ensures r.Some? <==> item.Type?
    ensures r.Some? ==>
      && r.value.ImplType?
      && r.value.tyItem.attrs == item.tyItem.attrs
      && r.value.tyItem.ident == item.tyItem.ident
      && r.value.tyItem.generics == item.tyItem.generics
      && r.value.tyItem.vis == Inherited && !r.value.tyItem.isDefault
      && r.value.tyItem.ty == DummyTy
  {
    match item
    case Type(t) => Some(ImplType(ImplItemType(t.attrs, Inherited, false, t.ident, t.generics, DummyTy)))
    case _ => None
  }

  /** `dummy_impl`: the impl of the double trait for `Dummy` holding only the associated type bindings. */
  function DummyImpl(doubleName: Ident, org: ItemTrait): (r: ItemImpl)
    ensures r.generics == [] && r.traitName == doubleName && r.selfTy == DummyTy && r.wherePreds == []
    ensures forall k :: 0 <= k < |r.items| ==> r.items[k].ImplType? && r.items[k].tyItem.ty == DummyTy
  {
    var items := FilterMap(TransformTraitItem, org.items);
    forall k | 0 <= k < |items|
      ensures items[k].ImplType? && items[k].tyItem.ty == DummyTy
    {
      FilterMapFrom(TransformTraitItem, org.items, k);
    }
    ItemImpl([], doubleName, DummyTy, [], items)
  }

  // ---------------------------------------------------------------------------
  // Properties of the placeholder implementation

  /** Exactly one binding per associated type. */
  lemma DummyImplItemCount(doubleName: Ident, org: ItemTrait)
    ensures |DummyImpl(doubleName, org).items| == Count(IsType, org.items)
  {
    FilterMapCount(TransformTraitItem, IsType, org.items);
  }

  /** The bindings follow the order of the associated types in the original. */
  lemma DummyImplKeepsOrder(doubleName: Ident, org: ItemTrait, front: seq<TraitItem>, back: seq<TraitItem>)
    ensures DummyImpl(doubleName, org.(items := front + back)).items ==
            DummyImpl(doubleName, org.(items := front)).items + DummyImpl(doubleName, org.(items := back)).items
  {
    FilterMapAppend(TransformTraitItem, front, back);
  }

  /** A trait without associated types gets an empty impl body. */
  lemma DummyImplEmptyWithoutTypes(doubleName: Ident, org: ItemTrait)
    requires forall i :: 0 <= i < |org.items| ==> !org.items[i].Type?
    ensures DummyImpl(doubleName, org).items == []
  {
    FilterMapNothing(TransformTraitItem, org.items);
  }

  /** Every associated type of the original is bound, under its own name and generics. */
  lemma DummyImplBindsEveryType(doubleName: Ident, org: ItemTrait, i: nat)
    requires i < |org.items| && org.items[i].Type?
    ensures var items := DummyImpl(doubleName, org).items;
      exists k :: 0 <= k < |items| && items[k] == TransformTraitItem(org.items[i]).value
  {
    FilterMapContains(TransformTraitItem, org.items, i);
  }

  /** Every binding is the binding of some associated type of the original. */
  lemma DummyImplOnlyTypes(doubleName: Ident, org: ItemTrait, k: nat)
    requires k < |DummyImpl(doubleName, org).items|
    ensures exists i :: 0 <= i < |org.items| && org.items[i].Type?
                        && Some(DummyImpl(doubleName, org).items[k]) == TransformTraitItem(org.items[i])
  {
    FilterMapFrom(TransformTraitItem, org.items, k);
  }
}
