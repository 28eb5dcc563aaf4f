/**
 * The earlier blanket implementation at the repository root (`src/`): the
 * same `impl<T> Org for T where T: Double` header, but only methods are
 * forwarded, as `Double::name(args,)`, with no `<Self as …>` qualifier and
 * no `.await`. Argument passing is the same code as the live one and is
 * shared with it.
 */
module LegacyTraitImpl {
  import opened Wrappers
  import opened Syntax
  import opened Iter
  import Live = TraitImpl
  import LegacyDoubleTrait

  /** `function_with_forwarding`: the original signature with a body that calls `Double::name`. */
  function FunctionWithForwarding(fnItem: TraitItemFn, doubleName: Ident): (r: ImplItemFn)
    ensures r.attrs == [] && r.vis == Inherited && !r.isDefault
    ensures r.sig == fnItem.sig
    ensures r.block.Forward?
    ensures r.block.callee == TraitPath(doubleName) && r.block.fnName == fnItem.sig.ident
    ensures Live.PassesThrough(fnItem.sig.inputs, r.block.args)
    ensures !r.block.awaited
  {
    var args := Map(Live.ParameterToArgument, fnItem.sig.inputs);
    ImplItemFn([], Inherited, false, fnItem.sig, Forward(TraitPath(doubleName), fnItem.sig.ident, args, false))
  }

  /** `map_methods`: methods are forwarded, every other item (associated types included) is dropped. */
  function MapMethods(item: TraitItem, doubleName: Ident): (r: Option<ImplItem>)
    ensures r.Some? <==> item.Fn?
    ensures item.Fn? ==> r == Some(ImplFn(FunctionWithForwarding(item.fnItem, doubleName)))
  {
    match item
    case Fn(f) => Some(ImplFn(FunctionWithForwarding(f, doubleName)))
    case _ => None
  }

  /** `trait_impl`: the blanket template holding one forwarding method per original method. */
  function TraitImpl(doubleName: Ident, org: ItemTrait): (r: ItemImpl)
    ensures r.generics == ["T"] && r.traitName == org.ident && r.selfTy == Path(["T"])
    ensures r.wherePreds == [Bound("T", doubleName)]
    ensures forall k :: 0 <= k < |r.items| ==>
      && r.items[k].ImplFn?
      && r.items[k].fnItem.block.Forward?
      && r.items[k].fnItem.block.callee == TraitPath(doubleName)
      && !r.items[k].fnItem.block.awaited
  {
    var items := FilterMap((item: TraitItem) => MapMethods(item, doubleName), org.items);
    forall k | 0 <= k < |items|
      ensures items[k].ImplFn? && items[k].fnItem.block.Forward?
      ensures items[k].fnItem.block.callee == TraitPath(doubleName) && !items[k].fnItem.block.awaited
    {
      FilterMapFrom((item: TraitItem) => MapMethods(item, doubleName), org.items, k);
    }
    Live.BlanketImpl(org.ident, doubleName).(items := items)
  }

  // ---------------------------------------------------------------------------
  // Properties of the earlier blanket implementation

  /** One forwarding method per original method; associated types and other items produce nothing. */
  lemma TraitImplItemCount(doubleName: Ident, org: ItemTrait)
    ensures |TraitImpl(doubleName, org).items| == Count(IsFn, org.items)
  {
    FilterMapCount((item: TraitItem) => MapMethods(item, doubleName), IsFn, org.items);
  }

  /** The forwarding methods follow the order of the original methods. */
  lemma TraitImplKeepsOrder(doubleName: Ident, org: ItemTrait, front: seq<TraitItem>, back: seq<TraitItem>)
    ensures TraitImpl(doubleName, org.(items := front + back)).items ==
            TraitImpl(doubleName, org.(items := front)).items + TraitImpl(doubleName, org.(items := back)).items
  {
    FilterMapAppend((item: TraitItem) => MapMethods(item, doubleName), front, back);
  }

  /** Every method of the original is forwarded, even an `async` one, whose call is then not awaited. */
  lemma TraitImplForwardsEveryMethod(doubleName: Ident, org: ItemTrait, i: nat)
    requires i < |org.items| && org.items[i].Fn?
    ensures var items := TraitImpl(doubleName, org).items;
      exists k :: 0 <= k < |items| && items[k] == ImplFn(FunctionWithForwarding(org.items[i].fnItem, doubleName))
  {
    FilterMapContains((item: TraitItem) => MapMethods(item, doubleName), org.items, i);
  }

  /**
   * The earlier impl differs from the live one exactly in the call path and
   * the missing `.await`, and in leaving associated types out.
   */
  lemma DiffersFromLive(doubleName: Ident, fnItem: TraitItemFn, tyItem: TraitItemType)
    ensures var live := Live.ForwardMethods(fnItem, doubleName);
      FunctionWithForwarding(fnItem, doubleName) ==
        live.(block := live.block.(callee := TraitPath(doubleName), awaited := false))
    ensures MapMethods(Type(tyItem), doubleName) == None && Live.ForwardItems(Type(tyItem), doubleName).Some?
  {
  }

  /**
   * The earlier pair does not fit together: a method with a body is dropped
   * from the earlier double trait, yet the earlier impl still forwards it as
   * `Double::name`, a method the double trait then does not have.
   */
  lemma ForwardsDroppedMethod(doubleName: Ident, org: ItemTrait, asyncBlockParses: bool, i: nat)
    requires i < |org.items| && HasDefault(org.items[i])
    requires forall j :: 0 <= j < |org.items| && j != i && org.items[j].Fn? ==>
               org.items[j].fnItem.sig.ident != org.items[i].fnItem.sig.ident
    requires LegacyDoubleTrait.DoubleTrait(doubleName, org, asyncBlockParses).Ok?
    ensures var items := TraitImpl(doubleName, org).items;
      exists k :: 0 <= k < |items| && items[k].ImplFn? && items[k].fnItem.block.Forward?
                  && items[k].fnItem.block.callee == TraitPath(doubleName)
                  && items[k].fnItem.block.fnName == org.items[i].fnItem.sig.ident
    ensures var d := LegacyDoubleTrait.DoubleTrait(doubleName, org, asyncBlockParses).value;
      d.ident == doubleName
      && forall k :: 0 <= k < |d.items| && d.items[k].Fn? ==> d.items[k].fnItem.sig.ident != org.items[i].fnItem.sig.ident
  {
    TraitImplForwardsEveryMethod(doubleName, org, i);
    var d := LegacyDoubleTrait.DoubleTrait(doubleName, org, asyncBlockParses).value;
    forall k | 0 <= k < |d.items| && d.items[k].Fn?
      ensures d.items[k].fnItem.sig.ident != org.items[i].fnItem.sig.ident
    {
      LegacyDoubleTrait.DoubleTraitOnlySurvivors(doubleName, org, asyncBlockParses, k);
      var j :| 0 <= j < |org.items| && LegacyDoubleTrait.Survives(org.items[j])
               && Some(d.items[k]) == LegacyDoubleTrait.Kept(org.items[j]);
      assert j != i;
      assert org.items[j].Fn? && d.items[k].fnItem.sig == org.items[j].fnItem.sig;
    }
  }
}
