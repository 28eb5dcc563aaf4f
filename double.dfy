/**
 * `expand` of the `double-derive` crate: run the three generators on the
 * same original trait and emit, in this order, the original trait, the
 * double trait, the blanket implementation and the `Dummy` implementation.
 */
module Double {
  import opened Wrappers
  import opened Syntax
  import DoubleTrait
  import TraitImpl
  import DummyImpl

  /** One emitted declaration of the macro's output. */
  datatype Fragment = TraitDecl(traitItem: ItemTrait) | ImplBlock(implItem: ItemImpl)

  /** `expand`: fails exactly when the double trait generator fails, with its error. */
  function Expand(doubleName: Ident, org: ItemTrait, asyncBlockParses: bool): (r: Result<seq<Fragment>, Error>)
    ensures r.Err? <==> DoubleTrait.DoubleTrait(doubleName, org, asyncBlockParses).Err?
    ensures r.Err? ==> r.error == DoubleTrait.DoubleTrait(doubleName, org, asyncBlockParses).error
    ensures r.Ok? ==>
      && |r.value| == 4
      && r.value[0] == TraitDecl(org)
      && r.value[1] == TraitDecl(DoubleTrait.DoubleTrait(doubleName, org, asyncBlockParses).value)
      && r.value[2] == ImplBlock(TraitImpl.TraitImpl(doubleName, org))
      && r.value[3] == ImplBlock(DummyImpl.DummyImpl(doubleName, org))
  {
    match DoubleTrait.DoubleTrait(doubleName, org, asyncBlockParses)
    case Err(e) => Err(e)
    case Ok(doubleTrait) =>
      var traitImpl := TraitImpl.TraitImpl(doubleName, org);
      var dummyImpl := DummyImpl.DummyImpl(doubleName, org);
      Ok([TraitDecl(org), TraitDecl(doubleTrait), ImplBlock(traitImpl), ImplBlock(dummyImpl)])
  }

  /**
   * The double trait carries the original's visibility and the new name; the
   * two impls come out the same whatever the original's visibility is.
   */
  lemma ExpandVisibility(doubleName: Ident, org: ItemTrait, asyncBlockParses: bool, vis: Visibility)
    requires Expand(doubleName, org, asyncBlockParses).Ok?
    ensures var fs := Expand(doubleName, org, asyncBlockParses).value;
      && fs[1].traitItem.vis == org.vis && fs[1].traitItem.ident == doubleName
      && Expand(doubleName, org.(vis := vis), asyncBlockParses).Ok?
      && var gs := Expand(doubleName, org.(vis := vis), asyncBlockParses).value;
         gs[1].traitItem.vis == vis && gs[2] == fs[2] && gs[3] == fs[3]
  {
  }

  /** An empty trait yields an empty double trait, an empty blanket impl and an empty `Dummy` impl. */
  lemma ExpandEmptyTrait(doubleName: Ident, org: ItemTrait, asyncBlockParses: bool)
    requires org.items == []
    ensures Expand(doubleName, org, asyncBlockParses) == Ok([
      TraitDecl(org),
      TraitDecl(org.(ident := doubleName)),
      ImplBlock(ItemImpl(["T"], org.ident, Path(["T"]), [Bound("T", doubleName)], [])),
      ImplBlock(ItemImpl([], doubleName, DummyTy, [], []))])
  {
  }

  /**
   * The output hangs together: every method of the double trait has a body,
   * the `Dummy` impl provides everything else the double trait asks for, and
   * the blanket impl provides everything the original trait asks for.
   */
  lemma ExpandProvidesEverything(doubleName: Ident, org: ItemTrait, asyncBlockParses: bool)
    requires Expand(doubleName, org, asyncBlockParses).Ok?
    ensures var fs := Expand(doubleName, org, asyncBlockParses).value;
      && (forall i :: 0 <= i < |fs[1].traitItem.items| && fs[1].traitItem.items[i].Fn? ==>
            fs[1].traitItem.items[i].fnItem.default.Some?)
      && fs[3].implItem.traitName == fs[1].traitItem.ident
      && Provides(fs[3].implItem, fs[1].traitItem)
      && fs[2].implItem.traitName == fs[0].traitItem.ident
      && fs[2].implItem.wherePreds == [Bound("T", fs[1].traitItem.ident)]
      && Provides(fs[2].implItem, fs[0].traitItem)
  {
    var d := DoubleTrait.DoubleTrait(doubleName, org, asyncBlockParses).value;
    var dummy := DummyImpl.DummyImpl(doubleName, org);
    DoubleTrait.DoubleTraitEveryMethodHasDefault(doubleName, org, asyncBlockParses);
    forall i | 0 <= i < |d.items| && d.items[i].Type?
      ensures exists k :: 0 <= k < |dummy.items| && dummy.items[k].ImplType?
                && dummy.items[k].tyItem.ident == d.items[i].tyItem.ident
                && dummy.items[k].tyItem.generics == d.items[i].tyItem.generics
    {
      DoubleTrait.DoubleTraitItemRules(doubleName, org, asyncBlockParses, i);
      DummyImpl.DummyImplBindsEveryType(doubleName, org, i);
    }
    TraitImpl.TraitImplProvidesOriginal(doubleName, org);
  }

  /**
   * Every method the blanket impl forwards to exists in the double trait
   * under the same name, methods with a body included.
   */
  lemma ExpandForwardsToExistingMethods(doubleName: Ident, org: ItemTrait, asyncBlockParses: bool, k: nat)
    requires Expand(doubleName, org, asyncBlockParses).Ok?
    requires k < |Expand(doubleName, org, asyncBlockParses).value[2].implItem.items|
    ensures var fs := Expand(doubleName, org, asyncBlockParses).value;
      var item := fs[2].implItem.items[k];
      item.ImplFn? ==>
        && item.fnItem.block.Forward?
        && item.fnItem.block.callee == QualifiedSelf(fs[1].traitItem.ident)
        && exists j :: 0 <= j < |fs[1].traitItem.items| && fs[1].traitItem.items[j].Fn?
                       && fs[1].traitItem.items[j].fnItem.sig.ident == item.fnItem.block.fnName
  {
    var d := DoubleTrait.DoubleTrait(doubleName, org, asyncBlockParses).value;
    var items := TraitImpl.TraitImpl(doubleName, org).items;
    TraitImpl.TraitImplOnlyForwards(doubleName, org, k);
    var i :| 0 <= i < |org.items| && IsFnOrType(org.items[i])
             && Some(items[k]) == TraitImpl.ForwardItems(org.items[i], doubleName);
    if items[k].ImplFn? {
      DoubleTrait.DoubleTraitItemRules(doubleName, org, asyncBlockParses, i);
      assert d.items[i].Fn? && d.items[i].fnItem.sig.ident == items[k].fnItem.block.fnName;
    }
  }
}
