/**
 * The earlier double trait generator at the repository root (`src/`), which
 * `src/lib.rs` does not declare as a module. Unlike the live one it drops
 * methods that already have a body and leaves parameter names alone. Its
 * return-type test is the same code as the live one and is shared with it.
 */
module LegacyDoubleTrait {
  import opened Wrappers
  import opened Syntax
  import opened Iter
  import Live = DoubleTrait

  /** `transform_function`: `None` for a method with a body, otherwise the method with the synthesised body. */
  function TransformFunction(fnItem: TraitItemFn, asyncBlockParses: bool): (r: Result<Option<TraitItemFn>, Error>)
    ensures fnItem.default.Some? ==> r == Ok(None)
    ensures r.Err? <==> Live.NeedsAsyncBody(fnItem) && !asyncBlockParses
    ensures r.Err? ==> r.error == Error(fnItem.sig.output, Live.ImplTraitUnsupported)
    ensures r.Ok? && fnItem.default.None? ==>
      && r.value.Some?
      && r.value.value.attrs == fnItem.attrs
      && r.value.value.sig == fnItem.sig
      && r.value.value.default == Some(Live.SynthesizedBody(fnItem.sig.output))
  {
    if fnItem.default.Some? then Ok(None)
    else if Live.IsMaybeImplFuture(fnItem.sig.output) then
      if asyncBlockParses then Ok(Some(fnItem.(default := Some(AsyncUnimplemented))))
      else Err(Error(fnItem.sig.output, Live.ImplTraitUnsupported))
    else
      Ok(Some(fnItem.(default := Some(Unimplemented))))
  }

  /** `transform_trait_item`: methods go through `TransformFunction`, every other item is kept. */
  function TransformTraitItem(item: TraitItem, asyncBlockParses: bool): (r: Result<Option<TraitItem>, Error>)
    ensures !item.Fn? ==> r == Ok(Some(item))
    ensures HasDefault(item) ==> r == Ok(None)
    ensures r.Err? <==> item.Fn? && Live.NeedsAsyncBody(item.fnItem) && !asyncBlockParses
    ensures r.Ok? && item.Fn? && !HasDefault(item) ==>
      r.value.Some? && r.value.value.Fn? && Ok(Some(r.value.value.fnItem)) == TransformFunction(item.fnItem, asyncBlockParses)
  {
    match item
    case Fn(f) =>
      (match TransformFunction(f, asyncBlockParses)
       case Ok(o) => Ok(match o case Some(g) => Some(Fn(g)) case None => None)
       case Err(e) => Err(e))
    case _ => Ok(Some(item))
  }

  /** `double_trait`: the original renamed, with the kept items transformed. */
  function DoubleTrait(doubleName: Ident, org: ItemTrait, asyncBlockParses: bool): (r: Result<ItemTrait, Error>)
    ensures r.Ok? ==>
      && r.value.ident == doubleName
      && r.value.attrs == org.attrs
      && r.value.vis == org.vis
      && r.value.isUnsafe == org.isUnsafe
      && r.value.generics == org.generics
      && r.value.supertraits == org.supertraits
      && |r.value.items| <= |org.items|
  {
    match TryFilterMap((item: TraitItem) => TransformTraitItem(item, asyncBlockParses), org.items)
    case Err(e) => Err(e)
    case Ok(items) => Ok(org.(ident := doubleName, items := items))
  }

  // ---------------------------------------------------------------------------
  // Properties of the earlier double trait

  /** What an item becomes once the template parses; the parse outcome never changes a successful result. */
  function Kept(item: TraitItem): Option<TraitItem>
  {
    var r := TransformTraitItem(item, true);
    assert r.Ok?;
    r.value
  }

  /** A method is dropped exactly when it has a body: an item survives iff it is not a method with a body. */
  predicate Survives(item: TraitItem) { !HasDefault(item) }

  /** On success the items are exactly `Kept` of the originals, in order. */
  lemma DoubleTraitItems(doubleName: Ident, org: ItemTrait, asyncBlockParses: bool)
    requires DoubleTrait(doubleName, org, asyncBlockParses).Ok?
    ensures DoubleTrait(doubleName, org, asyncBlockParses).value.items == FilterMap(Kept, org.items)
  {
    var f := (item: TraitItem) => TransformTraitItem(item, asyncBlockParses);
    TryFilterMapOk(f, org.items);
    TryFilterMapAllOk(f, Kept, org.items);
  }

  /** Methods with a body are removed, so the double trait has that many fewer items. */
  lemma DoubleTraitDropsDefaults(doubleName: Ident, org: ItemTrait, asyncBlockParses: bool)
    requires DoubleTrait(doubleName, org, asyncBlockParses).Ok?
    ensures |DoubleTrait(doubleName, org, asyncBlockParses).value.items| == Count(Survives, org.items)
  {
    DoubleTraitItems(doubleName, org, asyncBlockParses);
    FilterMapCount(Kept, Survives, org.items);
  }

  /** The kept items keep their relative order: the result on a concatenation is the concatenation of the results. */
  lemma DoubleTraitKeepsOrder(doubleName: Ident, org: ItemTrait, asyncBlockParses: bool, front: seq<TraitItem>, back: seq<TraitItem>)
    requires DoubleTrait(doubleName, org.(items := front + back), asyncBlockParses).Ok?
    ensures DoubleTrait(doubleName, org.(items := front), asyncBlockParses).Ok?
    ensures DoubleTrait(doubleName, org.(items := back), asyncBlockParses).Ok?
    ensures DoubleTrait(doubleName, org.(items := front + back), asyncBlockParses).value.items ==
            DoubleTrait(doubleName, org.(items := front), asyncBlockParses).value.items +
            DoubleTrait(doubleName, org.(items := back), asyncBlockParses).value.items
  {
    var f := (item: TraitItem) => TransformTraitItem(item, asyncBlockParses);
    TryFilterMapOk(f, front + back);
    assert forall i :: 0 <= i < |front| ==> front[i] == (front + back)[i];
    assert forall i :: 0 <= i < |back| ==> back[i] == (front + back)[|front| + i];
    TryFilterMapOk(f, front);
    TryFilterMapOk(f, back);
    DoubleTraitItems(doubleName, org.(items := front + back), asyncBlockParses);
    DoubleTraitItems(doubleName, org.(items := front), asyncBlockParses);
    DoubleTraitItems(doubleName, org.(items := back), asyncBlockParses);
    FilterMapAppend(Kept, front, back);
  }

  /**
   * Every non-method item and every method without a body appears in the
   * result: the former unchanged, the latter with its signature (and so its
   * parameter names) intact and with the synthesised body.
   */
  lemma DoubleTraitKeepsItem(doubleName: Ident, org: ItemTrait, asyncBlockParses: bool, i: nat)
    requires DoubleTrait(doubleName, org, asyncBlockParses).Ok? && i < |org.items| && Survives(org.items[i])
    ensures var items := DoubleTrait(doubleName, org, asyncBlockParses).value.items;
      && (!org.items[i].Fn? ==> exists k :: 0 <= k < |items| && items[k] == org.items[i])
      && (org.items[i].Fn? ==>
            exists k :: 0 <= k < |items| && items[k].Fn?
              && items[k].fnItem.sig == org.items[i].fnItem.sig
              && items[k].fnItem.attrs == org.items[i].fnItem.attrs
              && items[k].fnItem.default == Some(Live.SynthesizedBody(org.items[i].fnItem.sig.output)))
  {
    DoubleTraitItems(doubleName, org, asyncBlockParses);
    FilterMapContains(Kept, org.items, i);
  }

  /** Nothing else appears: every item of the result comes from a surviving original item. */
  lemma DoubleTraitOnlySurvivors(doubleName: Ident, org: ItemTrait, asyncBlockParses: bool, k: nat)
    requires DoubleTrait(doubleName, org, asyncBlockParses).Ok?
    requires k < |DoubleTrait(doubleName, org, asyncBlockParses).value.items|
    ensures exists i :: 0 <= i < |org.items| && Survives(org.items[i])
                        && Some(DoubleTrait(doubleName, org, asyncBlockParses).value.items[k]) == Kept(org.items[i])
  {
    DoubleTraitItems(doubleName, org, asyncBlockParses);
    FilterMapFrom(Kept, org.items, k);
  }

  /** The generator fails exactly when the async template is needed and does not parse. */
  lemma DoubleTraitFailsIff(doubleName: Ident, org: ItemTrait, asyncBlockParses: bool)
    ensures DoubleTrait(doubleName, org, asyncBlockParses).Err? <==>
      !asyncBlockParses && exists i :: 0 <= i < |org.items| && org.items[i].Fn? && Live.NeedsAsyncBody(org.items[i].fnItem)
  {
    TryFilterMapOk((item: TraitItem) => TransformTraitItem(item, asyncBlockParses), org.items);
  }

  /** The error reported is the one of the first method that needed the async body. */
  lemma DoubleTraitFirstError(doubleName: Ident, org: ItemTrait, asyncBlockParses: bool)
    requires DoubleTrait(doubleName, org, asyncBlockParses).Err?
    ensures exists i :: (
      && 0 <= i < |org.items| && org.items[i].Fn? && Live.NeedsAsyncBody(org.items[i].fnItem)
      && DoubleTrait(doubleName, org, asyncBlockParses).error == Error(org.items[i].fnItem.sig.output, Live.ImplTraitUnsupported)
      && forall j :: 0 <= j < i ==> !(org.items[j].Fn? && Live.NeedsAsyncBody(org.items[j].fnItem)))
  {
    TryFilterMapFirstError((item: TraitItem) => TransformTraitItem(item, asyncBlockParses), org.items);
  }
}
